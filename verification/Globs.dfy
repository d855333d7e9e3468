/** `Exclusion.PathRegex` of internal/assessment/scope.go: the regular expression
    it builds, the language of that expression, and the glob it stands for. */
module Globs {
  import opened Text
  import opened Paths

  /** The operators PathRegex emits. Letters match in either case ("(?i)"), a
      dot is any character but a newline, and the whole text must match. */
  datatype Re =
    | Empty
    | Letter(c: char)
    | Dot
    | Cat(left: Re, right: Re)
    | Star(re: Re)
    | Opt(re: Re)

  ghost predicate Matches(r: Re, s: string)
    decreases r, |s|
  {
    match r
    case Empty => s == ""
    case Letter(c) => |s| == 1 && Lower(s[0]) == Lower(c)
    case Dot => |s| == 1 && s[0] != '\n'
    case Cat(a, b) => exists k | 0 <= k <= |s| :: Matches(a, s[..k]) && Matches(b, s[k..])
    case Star(a) => s == "" || exists k | 0 < k <= |s| :: Matches(a, s[..k]) && Matches(r, s[k..])
    case Opt(a) => s == "" || Matches(a, s)
  }

  /** A quoted literal, then `rest`. */
  function Quote(text: string, rest: Re): Re {
    if text == "" then rest else Cat(Letter(text[0]), Quote(text[1..], rest))
  }

  /** The quoted parts joined by ".*", then `rest`. */
  function JoinParts(parts: seq<string>, rest: Re): Re
    requires |parts| >= 1
  {
    if |parts| == 1 then Quote(parts[0], rest)
    else Quote(parts[0], Cat(Star(Dot), JoinParts(parts[1..], rest)))
  }

  const BELOW := Opt(Cat(Letter('/'), Star(Dot)))

  /** The cleaned pattern the expression is built from: no trailing slash, so
      the pattern "/" becomes empty. */
  function Cleaned(pattern: string): string {
    var p := CleanPath(pattern);
    if p != "" && p[|p| - 1] == '/' then p[..|p| - 1] else p
  }

  function PathRegex(pattern: string): Re {
    JoinParts(Split(Cleaned(pattern), '*'), BELOW)
  }

  // ----- what the expression means -----------------------------------------

  /** Case-insensitive glob matching of the whole of `s`, in which "*" is any run
      of characters, or with `lines` any run without a newline. */
  predicate Glob(pat: string, s: string, lines: bool)
    decreases |pat| + |s|
  {
    if pat == "" then s == ""
    else if pat[0] == '*' then
      Glob(pat[1..], s, lines) || (s != "" && (lines ==> s[0] != '\n') && Glob(pat, s[1..], lines))
    else s != "" && Lower(s[0]) == Lower(pat[0]) && Glob(pat[1..], s[1..], lines)
  }

  /** `k` ends the path or one of its ancestors. */
  predicate Boundary(p: string, k: int) {
    0 <= k <= |p| && (k < |p| ==> p[k] == '/')
  }

  lemma {:induction false} DotRun(s: string)
    ensures Matches(Star(Dot), s) <==> '\n' !in s
  {
    if s != "" {
      DotRun(s[1..]);
      assert s == [s[0]] + s[1..];
      assert s[..1] == [s[0]];
      if Matches(Star(Dot), s) {
        var k :| 0 < k <= |s| && Matches(Dot, s[..k]) && Matches(Star(Dot), s[k..]);
        assert k == 1;
      }
      if '\n' !in s {
        assert Matches(Dot, s[..1]) && Matches(Star(Dot), s[1..]);
      }
    }
  }

  lemma {:induction false} BelowMatches(s: string)
    ensures Matches(BELOW, s) <==> s == "" || (s[0] == '/' && '\n' !in s[1..])
  {
    var tail := Cat(Letter('/'), Star(Dot));
    if s != "" {
      DotRun(s[1..]);
      assert s[..1] == [s[0]];
      if Matches(tail, s) {
        var k :| 0 <= k <= |s| && Matches(Letter('/'), s[..k]) && Matches(Star(Dot), s[k..]);
        assert k == 1;
        LowerSlash(s[0]);
      }
      if s[0] == '/' && '\n' !in s[1..] {
        assert Matches(Letter('/'), s[..1]) && Matches(Star(Dot), s[1..]);
      }
    }
  }

  lemma {:induction false} LowerSlash(c: char)
    ensures Lower(c) == Lower('/') <==> c == '/'
  {
    if 'A' <= c <= 'Z' {
      assert Lower(c) != '/';
    }
  }

  /** A star consumes some newline-free run and leaves the rest to the pattern. */
  lemma {:induction false} GlobStarIntro(pat: string, s: string, j: nat)
    requires pat != "" && pat[0] == '*' && j <= |s|
    requires '\n' !in s[..j] && Glob(pat[1..], s[j..], true)
    ensures Glob(pat, s, true)
    decreases j
  {
    if j == 0 {
      assert s[0..] == s;
    } else {
      assert s[0] in s[..j];
      assert s[1..][j - 1..] == s[j..] && s[1..][..j - 1] == s[..j][1..];
      GlobStarIntro(pat, s[1..], j - 1);
    }
  }

  lemma {:induction false} GlobStarElim(pat: string, s: string) returns (j: nat)
    requires pat != "" && pat[0] == '*' && Glob(pat, s, true)
    ensures j <= |s| && '\n' !in s[..j] && Glob(pat[1..], s[j..], true)
    decreases |s|
  {
    if Glob(pat[1..], s, true) {
      j := 0;
      assert s[0..] == s;
    } else {
      var i := GlobStarElim(pat, s[1..]);
      j := i + 1;
      assert s[1..][i..] == s[j..] && s[..j] == [s[0]] + s[1..][..i];
    }
  }

  /** The text that the emitted expression matches is cut at some `k`: the glob
      takes what is before it, `rest` what is after. */
  ghost predicate Cut(pat: string, rest: Re, s: string, k: int) {
    0 <= k <= |s| && Glob(pat, s[..k], true) && Matches(rest, s[k..])
  }

  lemma {:induction false} JoinPartsMatches(pat: string, rest: Re, s: string)
    ensures Matches(JoinParts(Split(pat, '*'), rest), s) <==> exists k :: Cut(pat, rest, s, k)
    decreases |pat|, 1
  {
    var re := JoinParts(Split(pat, '*'), rest);
    if pat == "" {
      assert s[0..] == s;
      if Matches(re, s) {
        assert Cut(pat, rest, s, 0);
      }
      if k :| Cut(pat, rest, s, k) {
        assert k == 0;
      }
    } else {
      var re' := JoinParts(Split(pat[1..], '*'), rest);
      if pat[0] == '*' {
        assert ([""] + Split(pat[1..], '*'))[1..] == Split(pat[1..], '*');
        assert re == Cat(Star(Dot), re');
        StarMatches(pat[1..], rest, s);
        assert pat == "*" + pat[1..];
      } else {
        JoinPartsLetter(pat, rest);
        LetterMatches(pat, rest, s);
      }
    }
  }

  lemma {:induction false} JoinPartsLetter(pat: string, rest: Re)
    requires pat != "" && pat[0] != '*'
    ensures JoinParts(Split(pat, '*'), rest) == Cat(Letter(pat[0]), JoinParts(Split(pat[1..], '*'), rest))
  {
    var parts := Split(pat[1..], '*');
    var first := [pat[0]] + parts[0];
    assert Split(pat, '*') == [first] + parts[1..];
    assert first[1..] == parts[0];
    assert ([first] + parts[1..])[1..] == parts[1..];
  }

  lemma {:induction false} LetterFirst(c: char, rest: Re, s: string)
    ensures Matches(Cat(Letter(c), rest), s) <==> s != "" && Lower(s[0]) == Lower(c) && Matches(rest, s[1..])
  {
    if s != "" {
      assert s[..1] == [s[0]];
      if Matches(Cat(Letter(c), rest), s) {
        var j :| 0 <= j <= |s| && Matches(Letter(c), s[..j]) && Matches(rest, s[j..]);
        assert j == 1;
      }
      if Lower(s[0]) == Lower(c) && Matches(rest, s[1..]) {
        assert Matches(Letter(c), s[..1]);
      }
    }
  }

  lemma {:induction false} LetterCut(pat: string, rest: Re, s: string, k: int)
    requires pat != "" && pat[0] != '*'
    ensures Cut(pat, rest, s, k) <==>
        k > 0 && s != "" && Lower(s[0]) == Lower(pat[0]) && Cut(pat[1..], rest, s[1..], k - 1)
  {
    hide Matches;
    if 0 < k <= |s| {
      assert s[..k][1..] == s[1..][..k - 1] && s[k..] == s[1..][k - 1..];
    }
  }

  lemma {:induction false} LetterMatches(pat: string, rest: Re, s: string)
    requires pat != "" && pat[0] != '*'
    ensures Matches(Cat(Letter(pat[0]), JoinParts(Split(pat[1..], '*'), rest)), s) <==> exists k :: Cut(pat, rest, s, k)
    decreases |pat|, 0
  {
    hide Split, JoinParts, Matches, Cut, Glob;
    var re' := JoinParts(Split(pat[1..], '*'), rest);
    LetterFirst(pat[0], re', s);
    if s != "" {
      JoinPartsMatches(pat[1..], rest, s[1..]);
    }
    if Matches(Cat(Letter(pat[0]), re'), s) {
      var k :| Cut(pat[1..], rest, s[1..], k);
      CutWithin(pat[1..], rest, s[1..], k);
      LetterCut(pat, rest, s, k + 1);
    }
    if k :| Cut(pat, rest, s, k) {
      LetterCut(pat, rest, s, k);
    }
  }

  lemma {:induction false} CutWithin(pat: string, rest: Re, s: string, k: int)
    requires Cut(pat, rest, s, k)
    ensures 0 <= k <= |s|
  {
  }

  lemma {:induction false} StarMatches(pat: string, rest: Re, s: string)
    ensures Matches(Cat(Star(Dot), JoinParts(Split(pat, '*'), rest)), s) <==> exists k :: Cut("*" + pat, rest, s, k)
    decreases |pat|, 2
  {
    hide Split, JoinParts, Glob;
    var re' := JoinParts(Split(pat, '*'), rest);
    if Matches(Cat(Star(Dot), re'), s) {
      var j :| 0 <= j <= |s| && Matches(Star(Dot), s[..j]) && Matches(re', s[j..]);
      DotRun(s[..j]);
      JoinPartsMatches(pat, rest, s[j..]);
      var k :| Cut(pat, rest, s[j..], k);
      assert s[..j + k][..j] == s[..j] && s[..j + k][j..] == s[j..][..k] && s[j + k..] == s[j..][k..];
      assert ("*" + pat)[1..] == pat;
      GlobStarIntro("*" + pat, s[..j + k], j);
      assert Cut("*" + pat, rest, s, j + k);
    }
    if k :| Cut("*" + pat, rest, s, k) {
      assert ("*" + pat)[1..] == pat;
      var j := GlobStarElim("*" + pat, s[..k]);
      assert s[..k][..j] == s[..j] && s[..k][j..] == s[j..][..k - j] && s[k..] == s[j..][k - j..];
      DotRun(s[..j]);
      JoinPartsMatches(pat, rest, s[j..]);
      assert Cut(pat, rest, s[j..], k - j);
    }
  }

  /** What PathRegex matches, newlines included: the glob up to some boundary,
      and no newline after it. */
  lemma {:induction false} PathRegexExact(pattern: string, p: string)
    ensures Matches(PathRegex(pattern), p) <==>
            exists k :: Boundary(p, k) && Glob(Cleaned(pattern), p[..k], true) && '\n' !in p[k..]
  {
    var pat := Cleaned(pattern);
    JoinPartsMatches(pat, BELOW, p);
    forall k | 0 <= k <= |p|
      ensures Cut(pat, BELOW, p, k) <==> Boundary(p, k) && Glob(pat, p[..k], true) && '\n' !in p[k..]
    {
      BelowMatches(p[k..]);
      if k < |p| {
        assert p[k..] == [p[k]] + p[k..][1..];
      }
    }
    if k :| Cut(pat, BELOW, p, k) {
      assert Boundary(p, k) && Glob(pat, p[..k], true) && '\n' !in p[k..];
    }
  }

  lemma {:induction false} GlobLines(pat: string, s: string)
    requires '\n' !in s
    ensures Glob(pat, s, true) <==> Glob(pat, s, false)
    decreases |pat| + |s|
  {
    if pat != "" {
      if pat[0] == '*' {
        GlobLines(pat[1..], s);
        if s != "" {
          GlobLines(pat, s[1..]);
        }
      } else if s != "" {
        GlobLines(pat[1..], s[1..]);
      }
    }
  }

  /** The documented meaning: on a path without newlines the expression matches
      when the path or one of its ancestors matches the glob. */
  lemma {:induction false} PathRegexIsGlob(pattern: string, p: string)
    requires '\n' !in p
    ensures Matches(PathRegex(pattern), p) <==> exists k :: Boundary(p, k) && Glob(Cleaned(pattern), p[..k], false)
  {
    PathRegexExact(pattern, p);
    forall k | Boundary(p, k)
      ensures '\n' !in p[k..] && (Glob(Cleaned(pattern), p[..k], true) <==> Glob(Cleaned(pattern), p[..k], false))
    {
      GlobLines(Cleaned(pattern), p[..k]);
    }
  }

  /** A pattern without a newline has no part that matches one. */
  lemma {:induction false} GlobNoLine(pat: string, s: string)
    requires '\n' !in pat && Glob(pat, s, true)
    ensures '\n' !in s
    decreases |pat| + |s|
  {
    if pat != "" && s != "" {
      assert s == [s[0]] + s[1..];
      if pat[0] != '*' {
        GlobNoLine(pat[1..], s[1..]);
      } else if Glob(pat[1..], s, true) {
        GlobNoLine(pat[1..], s);
      } else {
        GlobNoLine(pat, s[1..]);
      }
    }
  }

  /** The documented meaning is met exactly by the paths without a newline, unless
      the pattern itself holds one. */
  lemma {:induction false} PathRegexWithoutLines(pattern: string, p: string)
    requires '\n' !in Cleaned(pattern)
    ensures Matches(PathRegex(pattern), p) <==>
            '\n' !in p && exists k :: Boundary(p, k) && Glob(Cleaned(pattern), p[..k], false)
  {
    hide Matches, PathRegex, Cleaned, Glob, Boundary;
    if '\n' !in p {
      PathRegexIsGlob(pattern, p);
    } else if Matches(PathRegex(pattern), p) {
      var k := MatchedAt(pattern, p);
      assert p == p[..k] + p[k..];
      GlobNoLine(Cleaned(pattern), p[..k]);
    }
  }

  lemma {:induction false} MatchedAt(pattern: string, p: string) returns (k: int)
    requires Matches(PathRegex(pattern), p)
    ensures Boundary(p, k) && 0 <= k <= |p| && Glob(Cleaned(pattern), p[..k], true) && '\n' !in p[k..]
  {
    hide Matches, PathRegex, Cleaned, Glob;
    PathRegexExact(pattern, p);
    k :| Boundary(p, k) && Glob(Cleaned(pattern), p[..k], true) && '\n' !in p[k..];
  }

  lemma {:induction false} StarsMatchAll(pat: string, s: string)
    requires pat != "" && Glob(pat, "", true) && '\n' !in s
    ensures Glob(pat, s, true)
    decreases |pat| + |s|
  {
    if s != "" {
      StarsMatchAll(pat, s[1..]);
    }
  }

  lemma {:induction false} CleanedShape(pattern: string)
    ensures Cleaned(pattern) == "" || (|Cleaned(pattern)| > 1 && Cleaned(pattern)[0] == '/')
  {
    CleanPathCanonical(pattern);
    if Segments(pattern) != [] {
      LastCharacter(Segments(pattern));
    }
  }

  /** What `below` adds to `above`, as text. */
  function Added(above: seq<string>, below: seq<string>): string
    requires |Rooted(above)| <= |Rooted(below)|
  {
    Rooted(below)[|Rooted(above)|..]
  }

  lemma {:induction false} RootedBelow(above: seq<string>, below: seq<string>)
    requires Canonical(above) && Canonical(below) && above <= below
    ensures Rooted(above) <= Rooted(below)
    ensures above != [] ==> Rooted(below) == Rooted(above) || Rooted(above) + "/" <= Rooted(below)
    ensures above == [] ==> Rooted(above) == "/"
  {
    if above != [] {
      PathWithinRooted(below, above);
    }
  }

  /** A path that is matched takes everything below it along, if what is added has
      no newline: `above` and `below` are the segment lists of two cleaned paths. */
  lemma {:induction false} MatchedBelow(pattern: string, above: seq<string>, below: seq<string>)
    requires Canonical(above) && Canonical(below) && above <= below && Rooted(above) <= Rooted(below)
    requires '\n' !in Added(above, below)
    requires Matches(PathRegex(pattern), Rooted(above))
    ensures Matches(PathRegex(pattern), Rooted(below))
  {
    hide Matches, PathRegex, Cleaned, Glob, Rooted, Canonical;
    var p, q, pat := Rooted(above), Rooted(below), Cleaned(pattern);
    RootedBelow(above, below);
    var k := MatchedAt(pattern, p);
    PathRegexExact(pattern, q);
    if above == [] && k == 1 {
      RootMatched(pattern, q);
    } else {
      assert q[..k] == p[..k] && q == p + Added(above, below) && q[k..] == p[k..] + Added(above, below);
      assert Boundary(q, k) && Glob(pat, q[..k], true) && '\n' !in q[k..];
    }
  }

  /** A pattern that matches the text "/" ends in stars and matches all below. */
  lemma {:induction false} RootMatched(pattern: string, q: string)
    requires Glob(Cleaned(pattern), "/"[..1], true) && "/" <= q && '\n' !in q[1..]
    ensures Boundary(q, |q|) && Glob(Cleaned(pattern), q[..|q|], true) && '\n' !in q[|q|..]
  {
    var pat := Cleaned(pattern);
    CleanedShape(pattern);
    hide Cleaned;
    assert "/"[..1] == "/" && "/"[1..] == "";
    assert Glob(pat[1..], "", true);
    StarsMatchAll(pat[1..], q[1..]);
    assert q[..|q|] == q;
  }

  /** The pattern "/" matches exactly the cleaned paths without a newline. */
  lemma {:induction false} RootPattern(segs: seq<string>)
    requires Canonical(segs)
    ensures Matches(PathRegex("/"), Rooted(segs)) <==> '\n' !in Rooted(segs)
  {
    var p := Rooted(segs);
    assert Cleaned("/") == "" by {
      SegmentsOfRooted([]);
      assert Rooted([]) == "/";
    }
    PathRegexExact("/", p);
    assert p[..0] == "" && p[0..] == p;
    if '\n' !in p {
      assert Boundary(p, 0) && Glob("", p[..0], true) && '\n' !in p[0..];
    }
  }
}
