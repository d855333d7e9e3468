/** Cutting a scanner's report down to a byte limit, internal/scanner/bounded_artifact.go:
    structured reports by binary search, line reports record by record. */
module BoundedArtifacts {
  import opened Wrappers
  import opened Text

  // ----- the search --------------------------------------------------------

  function BitLength(n: nat): nat {
    if n == 0 then 0 else 1 + BitLength(n / 2)
  }

  lemma {:induction false} BitLengthMonotone(a: nat, b: nat)
    requires a <= b
    ensures BitLength(a) <= BitLength(b)
  {
    if a > 0 {
      BitLengthMonotone(a / 2, b / 2);
    }
  }

  function Power(k: nat): nat {
    if k == 0 then 1 else 2 * Power(k - 1)
  }

  /** The bit length is the binary logarithm: at most k exactly below the k-th power
      of two. */
  lemma {:induction false} BitLengthExactly(n: nat, k: nat)
    ensures BitLength(n) <= k <==> n < Power(k)
  {
    if n > 0 && k > 0 {
      BitLengthExactly(n / 2, k - 1);
    } else {
      PowerPositive(k);
    }
  }

  lemma {:induction false} PowerPositive(k: nat)
    ensures Power(k) >= 1
  {
    if k > 0 {
      PowerPositive(k - 1);
    }
  }

  /** What is left of a gap after one probe in its middle. */
  lemma {:induction false} GapHalves(gap: nat, next: nat)
    requires gap > 0 && (next == gap - (gap + 1) / 2 || next == (gap + 1) / 2 - 1)
    ensures 1 + BitLength(next) <= BitLength(gap)
  {
    BitLengthMonotone(next, gap / 2);
  }

  /** The most records that fit: `best` fits and no larger count does. */
  ghost predicate Largest(size: nat -> nat, total: nat, limit: int, best: nat) {
    best <= total && size(best) <= limit && forall c :: best < c <= total ==> size(c) > limit
  }

  // ----- a structured report -----------------------------------------------

  /** The text of a report around its groups of records: pieces[0], the group that
      is written first, pieces[1], the group that is written second, and so on. The
      groups are numbered as the code collects them; `order` says where they are
      written, since json.Marshal writes the keys of an object sorted. A row of a
      group that is an object holds its key, too. */
  datatype Layout = Layout(pieces: seq<string>, order: seq<nat>, objects: seq<bool>)

  /** Every group is written once. */
  predicate Fits(layout: Layout, groups: seq<seq<string>>) {
    && |layout.pieces| == |groups| + 1 && |layout.order| == |layout.objects| == |groups|
    && (forall g :: 0 <= g < |groups| ==> layout.order[g] < |groups|)
    && (forall g, h :: 0 <= g < h < |groups| ==> layout.order[g] != layout.order[h])
  }

  function Rows(rows: seq<string>): string {
    if rows == [] then "" else Join(rows, ',')
  }

  function RenderGroup(rows: seq<string>, isObject: bool): string {
    if isObject then "{" + Rows(rows) + "}" else "[" + Rows(rows) + "]"
  }

  /** A group that is written can be read again: rows without a comma between the
      brackets of an array or the braces of an object. */
  lemma {:induction false} GroupReadsBack(rows: seq<string>, isObject: bool)
    requires forall i :: 0 <= i < |rows| ==> ',' !in rows[i]
    ensures var text := RenderGroup(rows, isObject);
            && |text| >= 2 && text[0] == (if isObject then '{' else '[')
            && text[|text| - 1] == (if isObject then '}' else ']')
            && if rows == [] then |text| == 2 else Split(text[1..|text| - 1], ',') == rows
  {
    var text := RenderGroup(rows, isObject);
    assert text[1..|text| - 1] == Rows(rows);
    if rows != [] {
      SplitJoin(rows, ',');
    }
  }

  /** The report with these rows in its groups, from the group written as `g` on. */
  function RenderFrom(layout: Layout, groups: seq<seq<string>>, g: nat): string
    requires Fits(layout, groups) && g <= |groups|
    decreases |groups| - g
  {
    if g == |groups| then layout.pieces[g]
    else
      var k := layout.order[g];
      layout.pieces[g] + RenderGroup(groups[k], layout.objects[k]) + RenderFrom(layout, groups, g + 1)
  }

  function Min(a: nat, b: nat): nat {
    if a < b then a else b
  }

  function Total(groups: seq<seq<string>>): nat {
    if groups == [] then 0 else |groups[0]| + Total(groups[1..])
  }

  /** The first `count` records over all groups, group by group. */
  function Take(groups: seq<seq<string>>, count: nat): (r: seq<seq<string>>)
    ensures |r| == |groups|
  {
    if groups == [] then []
    else
      var take := Min(count, |groups[0]|);
      [groups[0][..take]] + Take(groups[1..], count - take)
  }

  function Flat(groups: seq<seq<string>>): seq<string> {
    if groups == [] then [] else groups[0] + Flat(groups[1..])
  }

  /** What Take keeps is the first `count` of the concatenation of the groups. */
  lemma {:induction false} TakeIsPrefix(groups: seq<seq<string>>, count: nat)
    requires count <= Total(groups)
    ensures |Flat(groups)| == Total(groups) && Flat(Take(groups, count)) == Flat(groups)[..count]
  {
    if groups != [] {
      var take := Min(count, |groups[0]|);
      var kept := Take(groups, count);
      TakeIsPrefix(groups[1..], count - take);
      assert kept[0] == groups[0][..take] && kept[1..] == Take(groups[1..], count - take);
    }
  }

  function Encode(layout: Layout, groups: seq<seq<string>>, count: nat): string
    requires Fits(layout, groups)
  {
    RenderFrom(layout, Take(groups, count), 0)
  }

  function SizeOf(layout: Layout, groups: seq<seq<string>>): nat -> nat
    requires Fits(layout, groups)
  {
    c => |Encode(layout, groups, c)|
  }

  // ----- more records, more bytes ------------------------------------------

  lemma {:induction false} RowsGrow(rows: seq<string>, a: nat, b: nat)
    requires a <= b <= |rows|
    ensures |Rows(rows[..a])| <= |Rows(rows[..b])|
    decreases b
  {
    if a < b {
      var front := rows[..b - 1];
      RowsGrow(rows, a, b - 1);
      assert rows[..b] == front + [rows[b - 1]];
      if front != [] {
        JoinAppend(front, [rows[b - 1]], ',');
      }
    }
  }

  lemma {:induction false} RenderFromGrows(layout: Layout, small: seq<seq<string>>, large: seq<seq<string>>, g: nat)
    requires Fits(layout, small) && Fits(layout, large) && g <= |small|
    requires forall i :: 0 <= i < |small| ==> |Rows(small[i])| <= |Rows(large[i])|
    ensures |RenderFrom(layout, small, g)| <= |RenderFrom(layout, large, g)|
    decreases |small| - g
  {
    hide Rows;
    if g < |small| {
      RenderFromGrows(layout, small, large, g + 1);
    }
  }

  lemma {:induction false} TakeGrows(groups: seq<seq<string>>, a: nat, b: nat, i: nat)
    requires a <= b && i < |groups|
    ensures |Rows(Take(groups, a)[i])| <= |Rows(Take(groups, b)[i])|
    decreases i
  {
    var take, more := Min(a, |groups[0]|), Min(b, |groups[0]|);
    if i == 0 {
      RowsGrow(groups[0], take, more);
    } else {
      TakeGrows(groups[1..], a - take, b - more, i - 1);
    }
  }

  /** The report never shrinks when it keeps more records. */
  lemma {:induction false} EncodeGrows(layout: Layout, groups: seq<seq<string>>, a: nat, b: nat)
    requires Fits(layout, groups) && a <= b
    ensures |Encode(layout, groups, a)| <= |Encode(layout, groups, b)|
  {
    var small, large := Take(groups, a), Take(groups, b);
    forall i | 0 <= i < |small|
      ensures |Rows(small[i])| <= |Rows(large[i])|
    {
      TakeGrows(groups, a, b, i);
    }
    hide Rows, Take;
    RenderFromGrows(layout, small, large, 0);
  }

  // ----- the document and its search ---------------------------------------

  /** The decoded report. Encoding rewrites its groups in place, always from the
      rows it was decoded with. */
  class Document {
    const layout: Layout
    const groups: seq<seq<string>>
    var current: seq<seq<string>>
    ghost var encodings: nat

    constructor (layout: Layout, groups: seq<seq<string>>)
      requires Fits(layout, groups)
      ensures this.layout == layout && this.groups == groups && current == groups && encodings == 0
    {
      this.layout, this.groups, current, encodings := layout, groups, groups, 0;
    }

    method EncodeFirst(count: nat) returns (text: string)
      requires Fits(layout, groups) && |current| == |groups|
      modifies this
      ensures |current| == |groups| && current == Take(groups, count)
      ensures text == Encode(layout, groups, count) && encodings == old(encodings) + 1
    {
      var left := count;
      for g := 0 to |groups|
        invariant |current| == |groups| && encodings == old(encodings)
        invariant current[..g] + Take(groups[g..], left) == Take(groups, count)
      {
        var take := Min(left, |groups[g]|);
        assert groups[g..][0] == groups[g] && groups[g..][1..] == groups[g + 1..];
        current := current[g := groups[g][..take]];
        left := left - take;
        assert current[..g + 1] == current[..g] + [groups[g][..take]];
      }
      assert groups[|groups|..] == [] && current[..|groups|] == current;
      encodings := encodings + 1;
      text := RenderFrom(layout, current, 0);
    }
  }

  /** The search: the report with the most leading records that fits, found with
      few encodings; None when not even the report without records fits. */
  method BoundDocument(doc: Document, limit: int) returns (retained: Option<string>, ghost best: nat)
    requires Fits(doc.layout, doc.groups) && |doc.current| == |doc.groups| && doc.encodings == 0
    modifies doc
    ensures var size := SizeOf(doc.layout, doc.groups);
            && (retained.None? <==> size(0) > limit)
            && (retained.Some? ==>
                  && Largest(size, Total(doc.groups), limit, best)
                  && retained.value == Encode(doc.layout, doc.groups, best))
    ensures doc.encodings <= 1 + BitLength(Total(doc.groups))
  {
    hide Encode, Take, Total, Fits, BitLength;
    ghost var size := SizeOf(doc.layout, doc.groups);
    var total := CountRows(doc.groups);
    var text := doc.EncodeFirst(0);
    best := 0;
    if |text| > limit {
      return None, 0;
    }
    forall a: nat, b: nat | a <= b <= total
      ensures size(a) <= size(b)
    {
      EncodeGrows(doc.layout, doc.groups, a, b);
    }
    var low, high := 0, total;
    while low < high
      invariant 0 <= low <= high <= total && |doc.current| == |doc.groups|
      invariant text == Encode(doc.layout, doc.groups, low) && size(low) <= limit
      invariant forall c :: high < c <= total ==> size(c) > limit
      invariant doc.encodings + BitLength(high - low) <= 1 + BitLength(total)
    {
      var middle := low + (high - low + 1) / 2;
      var candidate := doc.EncodeFirst(middle);
      assert size(middle) == |candidate|;
      ghost var gap := high - low;
      if |candidate| <= limit {
        low, text := middle, candidate;
      } else {
        high := middle - 1;
      }
      GapHalves(gap, high - low);
    }
    best := low;
    retained := Some(text);
  }

  method CountRows(groups: seq<seq<string>>) returns (total: nat)
    ensures total == Total(groups)
  {
    total := 0;
    for g := 0 to |groups|
      invariant total + Total(groups[g..]) == Total(groups)
    {
      assert groups[g..][0] == groups[g] && groups[g..][1..] == groups[g + 1..];
      total := total + |groups[g]|;
    }
  }

  // ----- a report of lines -------------------------------------------------

  /** What ReadBytes('\n') returns one after the other: each line with its newline,
      and last what follows the last newline, which may be empty. */
  function Lines(s: string): (r: seq<string>)
    ensures |r| >= 1 && '\n' !in r[|r| - 1] && forall i :: 0 <= i < |r| - 1 ==> r[i] != ""
    ensures Concat(r) == s
  {
    if s == "" then [""]
    else
      var rest := Lines(s[1..]);
      assert s == [s[0]] + s[1..];
      if s[0] == '\n' then ["\n"] + rest
      else
        assert ([[s[0]] + rest[0]] + rest[1..])[1..] == rest[1..];
        [[s[0]] + rest[0]] + rest[1..]
  }

  function Concat(pieces: seq<string>): string {
    if pieces == [] then "" else pieces[0] + Concat(pieces[1..])
  }

  predicate IsBlank(line: string) {
    Trim(line) == ""
  }

  /** The lines that are not blank. */
  function Kept(pieces: seq<string>): string {
    if pieces == [] then "" else (if IsBlank(pieces[0]) then "" else pieces[0]) + Kept(pieces[1..])
  }

  /** How many bytes the blank lines take. */
  function Dropped(pieces: seq<string>): nat {
    if pieces == [] then 0 else (if IsBlank(pieces[0]) then |pieces[0]| else 0) + Dropped(pieces[1..])
  }

  predicate AllValid(pieces: seq<string>, valid: string -> bool) {
    forall i :: 0 <= i < |pieces| && !IsBlank(pieces[i]) ==> valid(Trim(pieces[i]))
  }

  /** The loop from a point on; None is the error of an invalid record. */
  function Retained(pieces: seq<string>, so: string, limit: int, valid: string -> bool): Option<string> {
    if pieces == [] || |so| + |pieces[0]| > limit then Some(so)
    else if IsBlank(pieces[0]) then Retained(pieces[1..], so, limit, valid)
    else if !valid(Trim(pieces[0])) then None
    else Retained(pieces[1..], so + pieces[0], limit, valid)
  }

  /** The loop; `read` is the first limit + 1 bytes of the artifact. */
  method BoundLines(read: string, limit: int, valid: string -> bool) returns (out: Option<string>)
    ensures out == Retained(Lines(read), "", limit, valid)
  {
    hide Lines;
    var pieces := Lines(read);
    var retained := "";
    for i := 0 to |pieces|
      invariant Retained(pieces[i..], retained, limit, valid) == Retained(pieces, "", limit, valid)
    {
      var line := pieces[i];
      assert pieces[i..][0] == line && pieces[i..][1..] == pieces[i + 1..];
      if |retained| + |line| > limit {
        break;
      }
      if !IsBlank(line) {
        if !valid(Trim(line)) {
          return None;
        }
        retained := retained + line;
      }
    }
    out := Some(retained);
  }

  lemma {:induction false} KeptAndDropped(pieces: seq<string>)
    ensures |Kept(pieces)| + Dropped(pieces) == |Concat(pieces)|
  {
    hide IsBlank;
    if pieces != [] {
      KeptAndDropped(pieces[1..]);
    }
  }

  lemma {:induction false} ConcatAppend(a: seq<string>, b: seq<string>)
    ensures Concat(a + b) == Concat(a) + Concat(b)
  {
    if a == [] {
      assert a + b == b;
    } else {
      assert (a + b)[1..] == a[1..] + b;
      ConcatAppend(a[1..], b);
    }
  }

  /** While all that was read fits, every valid record is kept. */
  lemma {:induction false} RetainedThrough(front: seq<string>, rest: seq<string>, so: string, limit: int,
          valid: string -> bool)
    requires AllValid(front, valid) && |so| + |Concat(front)| <= limit
    ensures Retained(front + rest, so, limit, valid) == Retained(rest, so + Kept(front), limit, valid)
    decreases |front|
  {
    hide IsBlank, Trim;
    if front == [] {
      assert front + rest == rest && so + "" == so;
    } else {
      assert (front + rest)[1..] == front[1..] + rest;
      var next := if IsBlank(front[0]) then so else so + front[0];
      assert Retained(front + rest, so, limit, valid) == Retained(front[1..] + rest, next, limit, valid);
      assert |next| + |Concat(front[1..])| <= limit;
      KeptFrom(front, so);
      hide Retained, Kept, Concat;
      RetainedThrough(front[1..], rest, next, limit, valid);
    }
  }

  lemma {:induction false} KeptFrom(front: seq<string>, so: string)
    requires front != []
    ensures so + Kept(front) == (if IsBlank(front[0]) then so else so + front[0]) + Kept(front[1..])
  {
    hide IsBlank;
  }

  lemma {:induction false} KeptAppend(a: seq<string>, b: seq<string>)
    ensures Kept(a + b) == Kept(a) + Kept(b)
  {
    hide IsBlank;
    if a == [] {
      assert a + b == b;
    } else {
      assert (a + b)[1..] == a[1..] + b;
      KeptAppend(a[1..], b);
    }
  }

  lemma {:induction false} OnePiece(piece: string)
    ensures Concat([piece]) == piece && Kept([piece]) == (if IsBlank(piece) then "" else piece)
    ensures IsBlank("")
  {
    assert [piece][1..] == [] && Trim("") == "";
  }

  /** The piece cut by the limit. An artifact longer than the limit is read to one
      byte past it, so only its last piece can overflow, and it does exactly when
      no blank line was dropped before it. Otherwise a cut piece that is not blank
      is taken for a record: refused as invalid, or kept although incomplete. */
  lemma {:induction false} CutRecord(front: seq<string>, cut: string, limit: nat, valid: string -> bool)
    requires AllValid(front, valid) && cut != "" && |Concat(front + [cut])| == limit + 1
    ensures Retained(front + [cut], "", limit, valid) ==
            if Dropped(front) == 0 || IsBlank(cut) then Some(Kept(front))
            else if valid(Trim(cut)) then Some(Kept(front) + cut) else None
    ensures |Kept(front)| <= limit
  {
    ConcatAppend(front, [cut]);
    OnePiece(cut);
    KeptAndDropped(front);
    hide IsBlank, Trim, Kept, Dropped, Concat;
    RetainedThrough(front, [cut], "", limit, valid);
    assert "" + Kept(front) == Kept(front);
    assert [cut][1..] == [];
  }

  lemma {:induction false} LastOfLines(last: string, so: string, limit: nat, valid: string -> bool)
    requires last != "" && |so| <= limit && (IsBlank(last) || valid(Trim(last)))
    ensures Retained([last, ""], so, limit, valid) ==
            Some(if |so| + |last| > limit || IsBlank(last) then so else so + last)
  {
    OnePiece("");
    hide IsBlank, Trim;
    assert [last, ""][1..] == [""] && [""][1..] == [];
    assert |so| + |last| <= limit && !IsBlank(last) ==> Retained([""], so + last, limit, valid) == Some(so + last);
    assert Retained([""], so, limit, valid) == Some(so);
  }

  lemma {:induction false} ValidParts(front: seq<string>, last: string, valid: string -> bool)
    requires AllValid(front + [last], valid)
    ensures AllValid(front, valid) && (IsBlank(last) || valid(Trim(last)))
  {
    hide IsBlank, Trim;
    assert (front + [last])[|front|] == last;
    assert forall i :: 0 <= i < |front| ==> (front + [last])[i] == front[i];
  }

  /** When the last byte read ends a line nothing is cut. That line is the one that
      overflows, exactly when no blank line was dropped before it. */
  lemma {:induction false} WholeLine(front: seq<string>, last: string, limit: nat, valid: string -> bool)
    requires AllValid(front + [last], valid) && last != "" && |Concat(front + [last])| == limit + 1
    ensures Retained(front + [last] + [""], "", limit, valid) ==
            Some(if Dropped(front) == 0 then Kept(front) else Kept(front + [last]))
    ensures |Kept(front)| <= limit
    ensures if Dropped(front) == 0 && !IsBlank(last) then |Kept(front + [last])| == limit + 1
        else |Kept(front + [last])| <= limit
    ensures IsBlank(last) ==> Kept(front + [last]) == Kept(front)
  {
    hide IsBlank, Trim, Kept, Dropped, Concat, AllValid, Retained;
    ConcatAppend(front, [last]);
    KeptAppend(front, [last]);
    OnePiece(last);
    KeptAndDropped(front);
    ValidParts(front, last, valid);
    assert Kept(front) + "" == Kept(front) && "" + Kept(front) == Kept(front);
    assert front + [last] + [""] == front + [last, ""];
    RetainedThrough(front, [last, ""], "", limit, valid);
    LastOfLines(last, Kept(front), limit, valid);
  }

  /** What is retained consists of complete lines. */
  ghost predicate CompleteLines(out: Option<string>, pieces: seq<string>) {
    exists k :: 0 <= k < |pieces| && out == Some(Kept(pieces[..k]))
  }

  /** So a file of valid records is cut to complete records exactly when no blank
      line comes before the limit or what the limit cuts is blank; and then to all
      that were read, unless those are one byte too many. */
  lemma {:induction false} CompleteRecordsOnly(read: string, limit: nat, valid: string -> bool)
    requires |read| == limit + 1 && AllValid(Lines(read)[..|Lines(read)| - 1], valid)
    ensures var pieces := Lines(read);
            var front, cut, out := pieces[..|pieces| - 1], pieces[|pieces| - 1], Retained(pieces, "", limit, valid);
            && (CompleteLines(out, pieces) <==> Dropped(front) == 0 || IsBlank(cut))
            && (CompleteLines(out, pieces) ==>
               |out.value| <= limit && (out == Some(Kept(front)) || |Kept(front)| == limit + 1))
            && (!CompleteLines(out, pieces) ==> out == if valid(Trim(cut)) then Some(Kept(front) + cut) else None)
  {
    hide Lines, Retained, IsBlank, AllValid, Dropped, Kept, Trim, Concat;
    var pieces := Lines(read);
    var n := |pieces| - 1;
    var front, cut, out := pieces[..n], pieces[n], Retained(pieces, "", limit, valid);
    assert pieces == front + [cut];
    assert forall i :: 0 <= i < n ==> front[i] != "";
    OnePiece(cut);
    if cut != "" {
      CutRecord(front, cut, limit, valid);
      if out == Some(Kept(front)) {
        assert CompleteLines(out, pieces);
      }
      NotComplete(front, cut);
    } else {
      WholeLines(front, limit, valid);
      assert front + [""] == pieces;
      if out == Some(Kept(front)) {
        assert CompleteLines(out, pieces);
      } else {
        assert front[..n - 1] == pieces[..n - 1];
        assert CompleteLines(out, pieces);
      }
    }
  }

  lemma {:induction false} WholeLines(front: seq<string>, limit: nat, valid: string -> bool)
    requires AllValid(front, valid) && |Concat(front + [""])| == limit + 1 && forall i :: 0 <= i < |front| ==>
        front[i] != ""
    ensures front != []
    ensures var out := Retained(front + [""], "", limit, valid);
            && (out == Some(Kept(front)) || out == Some(Kept(front[..|front| - 1])))
            && |out.value| <= limit && (out == Some(Kept(front)) || |Kept(front)| == limit + 1)
  {
    hide Retained, IsBlank, AllValid, Dropped, Kept, Trim;
    ConcatAppend(front, [""]);
    OnePiece("");
    assert front != [];
    hide Concat;
    var n := |front| - 1;
    assert front == front[..n] + [front[n]];
    WholeLine(front[..n], front[n], limit, valid);
  }

  /** No complete lines are as long as all of them with a piece behind. */
  lemma {:induction false} NotComplete(front: seq<string>, cut: string)
    requires cut != ""
    ensures !CompleteLines(Some(Kept(front) + cut), front + [cut]) && !CompleteLines(None, front + [cut])
  {
    hide Kept;
    forall k | 0 <= k <= |front|
      ensures |Kept((front + [cut])[..k])| <= |Kept(front)|
    {
      assert (front + [cut])[..k] == front[..k] && front == front[..k] + front[k..];
      KeptAppend(front[..k], front[k..]);
    }
  }
}
