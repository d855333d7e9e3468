/** Cutting an XML report down to a byte limit, boundXMLArtifact of
    internal/scanner/bounded_artifact.go: the records found by one scan of the
    tokens, and what is left when the later ones are taken out. */
module BoundedXml {
  import opened Wrappers
  import opened BoundedArtifacts

  datatype Token = Start(name: string) | End(name: string) | Other(text: string)

  const MAX_TOKENS := 1000000

  // ----- well-formed markup ------------------------------------------------

  /** The elements open after some tokens; None when an end tag does not match.
      This is what the decoder checks, and the encoder again. */
  function Open(tokens: seq<Token>): Option<seq<string>> {
    if tokens == [] then Some([])
    else
      var n := |tokens| - 1;
      match Open(tokens[..n])
      case None => None
      case Some(stack) => OpenStep(stack, tokens[n])
  }

  function OpenStep(stack: seq<string>, t: Token): Option<seq<string>> {
    match t
    case Start(name) => Some(stack + [name])
    case End(name) => if stack != [] && stack[|stack| - 1] == name then Some(stack[..|stack| - 1]) else None
    case Other(_) => Some(stack)
  }

  predicate Balanced(tokens: seq<Token>) {
    Open(tokens) == Some([])
  }

  // ----- the scan ----------------------------------------------------------

  /** The variables of the scan. `depth` is where the current record began, and
      `debt` counts the elements of records that another record cut into. */
  datatype Scan = Scan(stack: seq<string>, current: int, total: nat, depth: nat, debt: int)

  predicate IsRecord(name: string, stack: seq<string>) {
    name == "result" && stack != [] && stack[|stack| - 1] == "results"
  }

  function Step(s: Scan, t: Token): Scan {
    match t
    case Start(name) =>
      if IsRecord(name, s.stack) then
        Scan(s.stack + [name], s.total, s.total + 1, |s.stack|,
             s.debt + if s.current >= 0 then |s.stack| - s.depth else 0)
      else s.(stack := s.stack + [name])
    case End(name) =>
      var stack := if s.stack == [] then [] else s.stack[..|s.stack| - 1];
      s.(stack := stack, current := if IsRecord(name, stack) then -1 else s.current)
    case Other(_) => s
  }

  function Scanned(tokens: seq<Token>): Scan {
    if tokens == [] then Scan([], -1, 0, 0, 0) else Step(Scanned(tokens[..|tokens| - 1]), tokens[|tokens| - 1])
  }

  /** The record a token is filed under: a start tag after it took effect, an end
      tag before. */
  function Tag(s: Scan, t: Token): int {
    if t.Start? then Step(s, t).current else s.current
  }

  /** The tokens outside the records and those of the first `count` records. */
  function Keep(tokens: seq<Token>, count: nat): seq<Token> {
    if tokens == [] then []
    else
      var n := |tokens| - 1;
      Keep(tokens[..n], count) + if Tag(Scanned(tokens[..n]), tokens[n]) < count then [tokens[n]] else []
  }

  /** A record inside another one. */
  predicate Nested(tokens: seq<Token>) {
    Scanned(tokens).debt > 0
  }

  // ----- where the current record is ---------------------------------------

  predicate RecordAt(stack: seq<string>, d: nat) {
    d < |stack| && IsRecord(stack[d], stack[..d])
  }

  /** The current record is open, and no record lies deeper. */
  ghost predicate Located(s: Scan) {
    && s.debt >= 0 && -1 <= s.current < s.total
    && (s.current >= 0 ==> RecordAt(s.stack, s.depth) && forall d: nat :: RecordAt(s.stack, d) ==> d <= s.depth)
  }

  lemma {:induction false} RecordAtPush(stack: seq<string>, name: string, d: nat)
    ensures RecordAt(stack + [name], d) <==> RecordAt(stack, d) || (d == |stack| && IsRecord(name, stack))
  {
    var more := stack + [name];
    if d < |more| {
      assert more[..d] == if d <= |stack| then stack[..d] else more;
      assert d < |stack| ==> more[d] == stack[d];
      assert d == |stack| ==> stack[..d] == stack;
    }
  }

  lemma {:induction false} StepLocated(s: Scan, t: Token)
    requires Located(s) && OpenStep(s.stack, t).Some?
    ensures Located(Step(s, t)) && Step(s, t).stack == OpenStep(s.stack, t).value
    ensures t.End? && s.current >= 0 ==>
      (Step(s, t).current == -1 <==> |Step(s, t).stack| == s.depth) && |Step(s, t).stack| >= s.depth
  {
    match t
    case Start(name) =>
      forall d: nat
        ensures RecordAt(s.stack + [name], d) <==> RecordAt(s.stack, d) || (d == |s.stack| && IsRecord(name, s.stack))
      {
        RecordAtPush(s.stack, name, d);
      }
      hide RecordAt, IsRecord;
    case End(name) =>
      var stack := s.stack[..|s.stack| - 1];
      assert s.stack == stack + [name];
      forall d: nat
        ensures RecordAt(s.stack, d) <==> RecordAt(stack, d) || (d == |stack| && IsRecord(name, stack))
        ensures RecordAt(stack, d) ==> d < |stack|
      {
        RecordAtPush(stack, name, d);
      }
      hide RecordAt, IsRecord;
      assert Step(s, t).stack == stack;
      if s.current >= 0 {
        assert RecordAt(s.stack, s.depth);
        assert IsRecord(name, stack) ==> RecordAt(s.stack, |stack|) && s.depth == |stack|;
      }
    case Other(_) =>
  }

  lemma {:induction false} ScanLocated(tokens: seq<Token>)
    requires Open(tokens).Some?
    ensures Located(Scanned(tokens)) && Scanned(tokens).stack == Open(tokens).value
  {
    if tokens != [] {
      var n := |tokens| - 1;
      ScanLocated(tokens[..n]);
      StepLocated(Scanned(tokens[..n]), tokens[n]);
      hide Located, Step;
    }
  }

  // ----- without nesting every cut is well formed --------------------------

  lemma {:induction false} DebtGrows(tokens: seq<Token>)
    requires tokens != [] && Open(tokens).Some?
    ensures var s := Scanned(tokens[..|tokens| - 1]); s.debt <= Scanned(tokens).debt
    ensures var s, t := Scanned(tokens[..|tokens| - 1]), tokens[|tokens| - 1];
            t.Start? && IsRecord(t.name, s.stack) && s.current >= 0 ==> Scanned(tokens).debt > 0
  {
    ScanLocated(tokens[..|tokens| - 1]);
    hide IsRecord;
  }

  /** What is open after the kept tokens: everything, or what lies above the
      current record when that record is taken out. */
  function KeptOpen(s: Scan, count: nat): seq<string> {
    if s.current < count || |s.stack| < s.depth then s.stack else s.stack[..s.depth]
  }

  lemma {:induction false} KeepStep(s: Scan, t: Token, count: nat)
    requires Located(s) && OpenStep(s.stack, t).Some?
    requires !(t.Start? && IsRecord(t.name, s.stack) && s.current >= 0)
    ensures Tag(s, t) < count ==> OpenStep(KeptOpen(s, count), t) == Some(KeptOpen(Step(s, t), count))
    ensures Tag(s, t) >= count ==> KeptOpen(s, count) == KeptOpen(Step(s, t), count)
  {
    StepLocated(s, t);
    var s' := Step(s, t);
    assert s.current >= 0 ==> s.depth < |s.stack|;
    match t
    case Start(name) =>
      hide IsRecord;
      assert s.current >= 0 ==> (s.stack + [name])[..s.depth] == s.stack[..s.depth];
      assert (s.stack + [name])[..|s.stack|] == s.stack;
    case End(name) =>
      hide IsRecord;
      if s.current >= 0 {
        assert s'.stack[..s.depth] == s.stack[..s.depth];
        assert |s'.stack| == s.depth ==> s'.stack[..s.depth] == s'.stack;
      }
    case Other(_) =>
  }

  lemma {:induction false} KeptIsOpen(tokens: seq<Token>, count: nat)
    requires Open(tokens).Some? && !Nested(tokens)
    ensures Open(Keep(tokens, count)) == Some(KeptOpen(Scanned(tokens), count))
  {
    if tokens != [] {
      var n := |tokens| - 1;
      var s, t, front := Scanned(tokens[..n]), tokens[n], Keep(tokens[..n], count);
      DebtGrows(tokens);
      KeptIsOpen(tokens[..n], count);
      ScanLocated(tokens[..n]);
      KeepStep(s, t, count);
      hide Step, Tag, Located, OpenStep, IsRecord, KeptOpen;
      assert front + [] == front;
      assert (front + [t])[..|front + [t]| - 1] == front;
    }
  }

  // ----- with nesting the empty cut is not ---------------------------------

  /** Start tags less end tags. */
  function Net(tokens: seq<Token>): int {
    if tokens == [] then 0
    else
      var n := |tokens| - 1;
      Net(tokens[..n]) + NetOf(tokens[n])
  }

  function NetOf(t: Token): int {
    if t.Start? then 1 else if t.End? then -1 else 0
  }

  lemma {:induction false} OpenNet(tokens: seq<Token>)
    requires Open(tokens).Some?
    ensures Net(tokens) == |Open(tokens).value|
  {
    if tokens != [] {
      OpenNet(tokens[..|tokens| - 1]);
    }
  }

  function Missing(s: Scan): int {
    s.debt + if s.current >= 0 then |s.stack| - s.depth else 0
  }

  lemma {:induction false} MissingStep(s: Scan, t: Token)
    requires Located(s) && OpenStep(s.stack, t).Some?
    ensures var s' := Step(s, t);
            |s'.stack| - Missing(s') == |s.stack| - Missing(s) + if Tag(s, t) < 0 then NetOf(t) else 0
  {
    StepLocated(s, t);
    hide IsRecord, RecordAt;
  }

  /** Taking out all records takes out more start tags than end tags by the debt. */
  lemma {:induction false} KeepNet(tokens: seq<Token>)
    requires Open(tokens).Some?
    ensures Net(Keep(tokens, 0)) == |Scanned(tokens).stack| - Missing(Scanned(tokens))
  {
    if tokens != [] {
      var n := |tokens| - 1;
      var front := Keep(tokens[..n], 0);
      KeepNet(tokens[..n]);
      ScanLocated(tokens[..n]);
      MissingStep(Scanned(tokens[..n]), tokens[n]);
      hide Step, Tag, Located, OpenStep, Missing, NetOf;
      assert front + [] == front;
      assert (front + [tokens[n]])[..|front + [tokens[n]]| - 1] == front;
    }
  }

  /** Of a well-formed report every cut is well formed, exactly when no record is
      nested in another; if one is, the encoder fails on the first cut. */
  lemma {:induction false} CutsAreBalanced(tokens: seq<Token>, count: nat)
    requires Balanced(tokens)
    ensures !Nested(tokens) ==> Balanced(Keep(tokens, count))
    ensures Nested(tokens) ==> Open(Keep(tokens, 0)) == None
  {
    ScanLocated(tokens);
    var s := Scanned(tokens);
    assert s.current == -1 && s.stack == [];
    if !Nested(tokens) {
      KeptIsOpen(tokens, count);
    } else {
      KeepNet(tokens);
      if Open(Keep(tokens, 0)).Some? {
        OpenNet(Keep(tokens, 0));
      }
    }
  }

  // ----- size --------------------------------------------------------------

  function Size(tokens: seq<Token>, bytes: Token -> nat): nat {
    if tokens == [] then 0 else Size(tokens[..|tokens| - 1], bytes) + bytes(tokens[|tokens| - 1])
  }

  function SizeOfCut(tokens: seq<Token>, bytes: Token -> nat): nat -> nat {
    c => Size(Keep(tokens, c), bytes)
  }

  lemma {:induction false} SizeGrows(tokens: seq<Token>, bytes: Token -> nat, a: nat, b: nat)
    requires a <= b
    ensures Size(Keep(tokens, a), bytes) <= Size(Keep(tokens, b), bytes)
  {
    if tokens != [] {
      var n := |tokens| - 1;
      var t := tokens[n];
      SizeGrows(tokens[..n], bytes, a, b);
      SizeMore(Keep(tokens[..n], a), t, bytes);
      SizeMore(Keep(tokens[..n], b), t, bytes);
      hide Size, Scanned, Tag;
      assert Keep(tokens[..n], a) + [] == Keep(tokens[..n], a) && Keep(tokens[..n], b) + [] == Keep(tokens[..n], b);
    }
  }

  lemma {:induction false} SizeMore(tokens: seq<Token>, t: Token, bytes: Token -> nat)
    ensures Size(tokens + [t], bytes) == Size(tokens, bytes) + bytes(t)
  {
    assert (tokens + [t])[..|tokens + [t]| - 1] == tokens;
  }

  // ----- the records, by the names of the elements -------------------------

  /** An element "result" right below an element "results" is among the open ones. */
  ghost predicate Inside(stack: seq<string>) {
    exists d: nat :: ResultAt(stack, d)
  }

  predicate ResultAt(stack: seq<string>, d: nat) {
    0 < d < |stack| && stack[d] == "result" && stack[d - 1] == "results"
  }

  /** A record begins with the i-th token. */
  predicate Begins(tokens: seq<Token>, i: int) {
    && 0 <= i < |tokens| && tokens[i] == Start("result") && Open(tokens[..i]).Some?
    && var stack := Open(tokens[..i]).value; stack != [] && stack[|stack| - 1] == "results"
  }

  /** How many records begin. */
  function Begun(tokens: seq<Token>): nat {
    if tokens == [] then 0 else Begun(tokens[..|tokens| - 1]) + if Begins(tokens, |tokens| - 1) then 1 else 0
  }

  /** A record begins inside another one. */
  ghost predicate Overlap(tokens: seq<Token>) {
    exists i :: Begins(tokens, i) && Inside(Open(tokens[..i]).value)
  }

  /** Without overlap at most one record is open, and it is the current one, which is
      the last that began. */
  ghost predicate Single(s: Scan) {
    && (s.current >= 0 <==> Inside(s.stack)) && (s.current >= 0 ==> s.current == s.total - 1)
    && forall d: nat, e: nat :: ResultAt(s.stack, d) && ResultAt(s.stack, e) ==> d == e
  }

  lemma {:induction false} ResultIsRecord(stack: seq<string>)
    ensures forall d: nat :: ResultAt(stack, d) <==> RecordAt(stack, d)
  {
    forall d: nat | d < |stack|
      ensures ResultAt(stack, d) <==> RecordAt(stack, d)
    {
      assert d > 0 ==> stack[..d][|stack[..d]| - 1] == stack[d - 1];
    }
  }

  lemma {:induction false} SingleStep(s: Scan, t: Token)
    requires Located(s) && Single(s) && OpenStep(s.stack, t).Some?
    requires !(t == Start("result") && IsRecord("result", s.stack) && Inside(s.stack))
    ensures Single(Step(s, t)) && Step(s, t).debt == s.debt
  {
    StepLocated(s, t);
    var s' := Step(s, t);
    ResultIsRecord(s.stack);
    ResultIsRecord(s'.stack);
    match t
    case Start(name) =>
      forall d: nat
        ensures RecordAt(s'.stack, d) <==> RecordAt(s.stack, d) || (d == |s.stack| && IsRecord(name, s.stack))
      {
        RecordAtPush(s.stack, name, d);
      }
      assert IsRecord(name, s.stack) ==> name == "result";
      assert IsRecord(name, s.stack) ==> RecordAt(s'.stack, |s.stack|);
      hide RecordAt, IsRecord, ResultAt;
    case End(name) =>
      assert s.stack == s'.stack + [name];
      forall d: nat
        ensures RecordAt(s.stack, d) <==> RecordAt(s'.stack, d) || (d == |s'.stack| && IsRecord(name, s'.stack))
        ensures RecordAt(s'.stack, d) ==> d < |s'.stack|
      {
        RecordAtPush(s'.stack, name, d);
      }
      assert IsRecord(name, s'.stack) ==> RecordAt(s.stack, |s'.stack|);
      hide RecordAt, IsRecord, ResultAt;
    case Other(_) =>
  }

  /** The scan counts the records that begin, and finds nesting exactly if one of
      them begins inside another. */
  lemma {:induction false} RecordsExactly(tokens: seq<Token>)
    requires Open(tokens).Some?
    ensures Scanned(tokens).total == Begun(tokens)
    ensures Nested(tokens) <==> Overlap(tokens)
    ensures !Nested(tokens) ==> Single(Scanned(tokens))
  {
    ScanLocated(tokens);
    if tokens != [] {
      var n := |tokens| - 1;
      RecordsExactly(tokens[..n]);
      ScanLocated(tokens[..n]);
      DebtGrows(tokens);
      OverlapStep(tokens);
      var s := Scanned(tokens[..n]);
      assert tokens[n].Start? ==> (IsRecord(tokens[n].name, s.stack) <==> Begins(tokens, n));
      hide Open, OpenStep, Located, IsRecord, Overlap, Inside;
      if !Nested(tokens[..n]) && !(Begins(tokens, n) && Inside(s.stack)) {
        SingleStep(s, tokens[n]);
      }
    }
  }

  lemma {:induction false} OverlapStep(tokens: seq<Token>)
    requires tokens != [] && Open(tokens).Some?
    ensures var n := |tokens| - 1;
            Overlap(tokens) <==> Overlap(tokens[..n]) || (Begins(tokens, n) && Inside(Open(tokens[..n]).value))
  {
    hide Open, Inside;
    var n := |tokens| - 1;
    forall i | 0 <= i < n
      ensures Begins(tokens[..n], i) <==> Begins(tokens, i)
      ensures tokens[..n][..i] == tokens[..i]
    {
      assert tokens[..n][..i] == tokens[..i];
    }
  }

  lemma {:induction false} OverlapMore(tokens: seq<Token>, i: nat)
    requires i <= |tokens| && Overlap(tokens[..i])
    ensures Overlap(tokens)
  {
    hide Open, Inside;
    var k :| Begins(tokens[..i], k) && Inside(Open(tokens[..i][..k]).value);
    assert tokens[..i][..k] == tokens[..k];
    assert Begins(tokens, k);
  }

  /** A cut keeps a token unless it belongs to a record after the first `count`: a
      start tag belongs to the record open after it, other tokens to the one open
      before, and that record is the last that began. */
  lemma {:induction false} KeptExactly(tokens: seq<Token>, i: nat, count: nat)
    requires i < |tokens| && Open(tokens).Some? && !Overlap(tokens)
    ensures var upto := if tokens[i].Start? then tokens[..i + 1] else tokens[..i];
            && Open(upto).Some?
            && Keep(tokens[..i + 1], count) == Keep(tokens[..i], count) +
                 if Inside(Open(upto).value) && Begun(upto) > count then [] else [tokens[i]]
  {
    var upto := if tokens[i].Start? then tokens[..i + 1] else tokens[..i];
    PrefixOpen(tokens, i);
    PrefixOpen(tokens, i + 1);
    assert tokens[..i + 1][..i] == tokens[..i];
    if Overlap(upto) {
      OverlapMore(tokens, |upto|);
    }
    RecordsExactly(upto);
    ScanLocated(upto);
    hide Open, Overlap, Inside, Begun, Located;
    assert Tag(Scanned(tokens[..i]), tokens[i]) == Scanned(upto).current;
  }

  // ----- the code ----------------------------------------------------------

  ghost predicate Tagged(tokens: seq<Token>, tags: seq<int>) {
    |tags| == |tokens| && forall i :: 0 <= i < |tokens| ==> tags[i] == Tag(Scanned(tokens[..i]), tokens[i])
  }

  /** The scan as it runs: tokens with their records. */
  method TagTokens(tokens: seq<Token>) returns (tags: seq<int>, total: nat)
    requires Balanced(tokens)
    ensures Tagged(tokens, tags) && total == Scanned(tokens).total
  {
    hide Scanned, Open, OpenStep, Step, Tag, IsRecord;
    tags, total := [], 0;
    var stack: seq<string> := [];
    var current: int := -1;
    NothingScanned(tokens);
    for i := 0 to |tokens|
      invariant |tags| == i && forall k :: 0 <= k < i ==> tags[k] == Tag(Scanned(tokens[..k]), tokens[k])
      invariant Follows(Scanned(tokens[..i]), stack, current, total)
    {
      ScannedNext(tokens, i);
      var tag;
      tag, stack, current, total := ScanToken(tokens[i], stack, current, total, Scanned(tokens[..i]));
      tags := tags + [tag];
    }
    assert tokens[..|tokens|] == tokens;
  }

  predicate Follows(s: Scan, stack: seq<string>, current: int, total: nat) {
    stack == s.stack && current == s.current && total == s.total
  }

  /** One turn of the scan. */
  method ScanToken(t: Token, stack: seq<string>, current: int, total: nat, ghost s: Scan)
    returns (tag: int, stack': seq<string>, current': int, total': nat)
    requires Follows(s, stack, current, total) && OpenStep(stack, t).Some?
    ensures tag == Tag(s, t) && Follows(Step(s, t), stack', current', total')
  {
    hide IsRecord;
    stack', current', total' := stack, current, total;
    if t.Start? {
      if IsRecord(t.name, stack') {
        current' := total';
        total' := total' + 1;
      }
      stack' := stack' + [t.name];
    }
    tag := current';
    if t.End? {
      stack' := stack'[..|stack'| - 1];
      if IsRecord(t.name, stack') {
        current' := -1;
      }
    }
  }

  lemma {:induction false} NothingScanned(tokens: seq<Token>)
    ensures Scanned(tokens[..0]) == Scan([], -1, 0, 0, 0)
  {
  }

  lemma {:induction false} ScannedNext(tokens: seq<Token>, i: nat)
    requires Balanced(tokens) && i < |tokens|
    ensures Scanned(tokens[..i + 1]) == Step(Scanned(tokens[..i]), tokens[i])
    ensures OpenStep(Scanned(tokens[..i]).stack, tokens[i]).Some?
  {
    hide Step, OpenStep, Located, Open;
    PrefixOpen(tokens, i);
    PrefixOpen(tokens, i + 1);
    ScanLocated(tokens[..i]);
    assert tokens[..i + 1][..i] == tokens[..i];
  }

  lemma {:induction false} PrefixOpen(tokens: seq<Token>, i: nat)
    requires Open(tokens).Some? && i <= |tokens|
    ensures Open(tokens[..i]).Some?
    ensures i < |tokens| ==> OpenStep(Open(tokens[..i]).value, tokens[i]) == Open(tokens[..i + 1])
    decreases |tokens| - i
  {
    if i < |tokens| {
      PrefixOpen(tokens, i + 1);
      assert tokens[..i + 1][..i] == tokens[..i];
    } else {
      assert tokens[..i] == tokens;
    }
  }

  /** The encoder on the first `count` records; None when it meets an end tag that
      does not match. */
  method EncodeCut(tokens: seq<Token>, tags: seq<int>, count: nat) returns (out: Option<seq<Token>>)
    requires Tagged(tokens, tags)
    ensures out == if Open(Keep(tokens, count)).Some? then Some(Keep(tokens, count)) else None
  {
    hide Scanned, Tag;
    var written: seq<Token> := [];
    assert Keep(tokens[..0], count) == [];
    for i := 0 to |tokens|
      invariant written == Keep(tokens[..i], count)
    {
      assert tokens[..i + 1][..i] == tokens[..i];
      if tags[i] < 0 || tags[i] < count {
        written := written + [tokens[i]];
      }
    }
    assert tokens[..|tokens|] == tokens;
    out := if Open(written).Some? then Some(written) else None;
  }

  /** The report with the most leading records that fits. It fails when records are
      nested, when there are too many tokens, or when nothing fits. */
  method BoundXmlArtifact(tokens: seq<Token>, bytes: Token -> nat, limit: int)
    returns (retained: Option<seq<Token>>, ghost best: nat, encodings: nat)
    requires Balanced(tokens)
    ensures var size := SizeOfCut(tokens, bytes);
            && (retained.None? <==> |tokens| > 1000000 || Overlap(tokens) || size(0) > limit)
            && (retained.Some? ==>
                  && Largest(size, Begun(tokens), limit, best)
                  && retained.value == Keep(tokens, best) && Balanced(retained.value))
    ensures encodings <= 1 + BitLength(Begun(tokens))
  {
    hide Keep, Open, Scanned, Tag, Step, Nested, Overlap, Begun, Single, Size, BitLength;
    RecordsExactly(tokens);
    best, encodings := 0, 0;
    if |tokens| > MAX_TOKENS {
      return None, 0, 0;
    }
    var tags, total := TagTokens(tokens);
    var first := EncodeCut(tokens, tags, 0);
    encodings := 1;
    CutsAreBalanced(tokens, 0);
    if first.None? {
      return None, 0, encodings;
    }
    if Size(first.value, bytes) > limit {
      return None, 0, encodings;
    }
    var kept;
    kept, best, encodings := SearchCuts(tokens, tags, bytes, limit, total, first.value);
    retained := Some(kept);
  }

  method SearchCuts(tokens: seq<Token>, tags: seq<int>, bytes: Token -> nat, limit: int, total: nat, first: seq<Token>)
    returns (kept: seq<Token>, ghost best: nat, encodings: nat)
    requires Balanced(tokens) && !Nested(tokens) && Tagged(tokens, tags)
    requires first == Keep(tokens, 0) && Size(first, bytes) <= limit
    ensures Largest(SizeOfCut(tokens, bytes), total, limit, best) && kept == Keep(tokens, best) && Balanced(kept)
    ensures encodings <= 1 + BitLength(total)
  {
    hide Keep, Open, Scanned, Tag, Step, Nested, Size, Tagged, BitLength;
    ghost var size := SizeOfCut(tokens, bytes);
    CutsAreBalanced(tokens, 0);
    var low, high := 0, total;
    kept, encodings := first, 1;
    while low < high
      invariant 0 <= low <= high <= total
      invariant kept == Keep(tokens, low) && Balanced(kept) && size(low) <= limit
      invariant forall c :: high < c <= total ==> size(c) > limit
      invariant encodings + BitLength(high - low) <= 1 + BitLength(total)
    {
      var middle := low + (high - low + 1) / 2;
      CutsAreBalanced(tokens, middle);
      var candidate := EncodeCut(tokens, tags, middle);
      encodings := encodings + 1;
      ghost var gap := high - low;
      if Size(candidate.value, bytes) <= limit {
        low, kept := middle, candidate.value;
      } else {
        forall c: nat | middle <= c <= total
          ensures size(c) > limit
        {
          SizeGrows(tokens, bytes, middle, c);
        }
        high := middle - 1;
      }
      GapHalves(gap, high - low);
    }
    best := low;
  }
}
