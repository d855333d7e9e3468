/** Sorting and dropping repeats, as sortDedupeOrigins and sortDedupeExclusions of
    internal/assessment/scope.go do it, over any total order `le` and any notion
    `same` of being a repeat. */
module NormalForms {

  /** What a sort needs of a comparison; equals may differ. */
  ghost predicate Preorder<T(!new)>(le: (T, T) -> bool) {
    && (forall x :: le(x, x))
    && (forall x, y :: le(x, y) || le(y, x))
    && (forall x, y, z :: le(x, y) && le(y, z) ==> le(x, z))
  }

  ghost predicate TotalOrder<T(!new)>(le: (T, T) -> bool) {
    Preorder(le) && forall x, y :: le(x, y) && le(y, x) ==> x == y
  }

  /** Repeats form classes that are contiguous in the order. */
  ghost predicate Classes<T(!new)>(le: (T, T) -> bool, same: (T, T) -> bool) {
    && (forall x :: same(x, x))
    && (forall x, y :: same(x, y) ==> same(y, x))
    && (forall x, y, z :: same(x, y) && same(y, z) ==> same(x, z))
    && (forall x, y, z :: same(x, z) && le(x, y) && le(y, z) ==> same(x, y))
  }

  ghost predicate Sorted<T>(xs: seq<T>, le: (T, T) -> bool) {
    forall i, j :: 0 <= i < j < |xs| ==> le(xs[i], xs[j])
  }

  // ----- the code ----------------------------------------------------------

  /** One element into a sorted sequence, before its equals. */
  function Insert<T>(x: T, xs: seq<T>, le: (T, T) -> bool): seq<T> {
    if xs == [] || le(x, xs[0]) then [x] + xs else [xs[0]] + Insert(x, xs[1..], le)
  }

  /** The stable sort; under a total order there is only one sorted arrangement. */
  function Sort<T>(xs: seq<T>, le: (T, T) -> bool): seq<T> {
    if xs == [] then [] else Insert(xs[0], Sort(xs[1..], le), le)
  }

  /** A sorted sequence without the elements that repeat the last one kept. */
  function Dedupe<T>(xs: seq<T>, same: (T, T) -> bool): (r: seq<T>)
    ensures |r| == 0 <==> |xs| == 0
  {
    if |xs| <= 1 then xs
    else
      var front := Dedupe(xs[..|xs| - 1], same);
      if same(xs[|xs| - 1], front[|front| - 1]) then front else front + [xs[|xs| - 1]]
  }

  function NormalForm<T>(xs: seq<T>, le: (T, T) -> bool, same: (T, T) -> bool): seq<T> {
    Dedupe(Sort(xs, le), same)
  }

  /** The loop of the source over the sorted copy. */
  method SortDedupe<T(!new)>(xs: seq<T>, le: (T, T) -> bool, same: (T, T) -> bool) returns (out: seq<T>)
    requires TotalOrder(le) && Classes(le, same)
    ensures out == NormalForm(xs, le, same)
    ensures IsNormalForm(out, xs, le, same)
  {
    hide TotalOrder, Classes, Sort, IsNormalForm;
    NormalFormCorrect(xs, le, same);
    var sorted := Sort(xs, le);
    if |sorted| == 0 {
      return [];
    }
    out := [sorted[0]];
    for i := 1 to |sorted|
      invariant out == Dedupe(sorted[..i], same)
    {
      assert sorted[..i + 1][..i] == sorted[..i];
      if !same(sorted[i], out[|out| - 1]) {
        out := out + [sorted[i]];
      }
    }
    assert sorted[..|sorted|] == sorted;
  }

  // ----- what a normal form is ---------------------------------------------

  /** Increasing and free of repeats, the least element of every class of `xs`
      and nothing else. */
  ghost predicate IsNormalForm<T(!new)>(out: seq<T>, xs: seq<T>, le: (T, T) -> bool, same: (T, T) -> bool) {
    && (forall i, j :: 0 <= i < j < |out| ==> le(out[i], out[j]) && !same(out[i], out[j]))
    && (forall i :: 0 <= i < |out| ==> out[i] in xs && Least(out[i], xs, le, same))
    && (forall x :: x in xs ==> Represented(x, out, same))
  }

  ghost predicate Least<T(!new)>(x: T, xs: seq<T>, le: (T, T) -> bool, same: (T, T) -> bool) {
    forall y :: y in xs && same(y, x) ==> le(x, y)
  }

  ghost predicate Represented<T(!new)>(x: T, out: seq<T>, same: (T, T) -> bool) {
    exists i :: 0 <= i < |out| && same(x, out[i])
  }

  lemma {:induction false} InsertCorrect<T(!new)>(x: T, xs: seq<T>, le: (T, T) -> bool)
    requires Preorder(le) && Sorted(xs, le)
    ensures Sorted(Insert(x, xs, le), le)
    ensures multiset(Insert(x, xs, le)) == multiset(xs) + multiset{x}
  {
    if xs == [] {
    } else if le(x, xs[0]) {
      assert forall i :: 0 <= i < |xs| ==> le(x, xs[i]);
    } else {
      var rest := Insert(x, xs[1..], le);
      InsertCorrect(x, xs[1..], le);
      assert xs == [xs[0]] + xs[1..];
      forall i | 0 <= i < |rest|
        ensures le(xs[0], rest[i])
      {
        assert rest[i] in multiset(rest);
        assert rest[i] == x || rest[i] in xs[1..];
      }
    }
  }

  lemma {:induction false} SortCorrect<T(!new)>(xs: seq<T>, le: (T, T) -> bool)
    requires Preorder(le)
    ensures Sorted(Sort(xs, le), le)
    ensures multiset(Sort(xs, le)) == multiset(xs)
    ensures forall x :: x in Sort(xs, le) <==> x in xs
  {
    if xs != [] {
      SortCorrect(xs[1..], le);
      InsertCorrect(xs[0], Sort(xs[1..], le), le);
      assert xs == [xs[0]] + xs[1..];
    }
    forall x
      ensures x in Sort(xs, le) <==> x in xs
    {
      assert x in Sort(xs, le) <==> x in multiset(Sort(xs, le));
    }
  }

  lemma {:induction false} DedupeCorrect<T(!new)>(xs: seq<T>, le: (T, T) -> bool, same: (T, T) -> bool)
    requires TotalOrder(le) && Classes(le, same) && Sorted(xs, le)
    ensures IsNormalForm(Dedupe(xs, same), xs, le, same)
  {
    if |xs| == 0 {
    } else if |xs| == 1 {
      assert Represented(xs[0], xs, same);
    } else {
      var n := |xs| - 1;
      var init, last := xs[..n], xs[n];
      var front := Dedupe(init, same);
      DedupeCorrect(init, le, same);
      assert xs == init + [last];
      DedupeLast(init, last, front, le, same);
    }
  }

  /** One more element `last` after everything in `init`. */
  lemma {:induction false} DedupeLast<T(!new)>(init: seq<T>, last: T, front: seq<T>,
          le: (T, T) -> bool, same: (T, T) -> bool)
    requires TotalOrder(le) && Classes(le, same) && init != [] && front != []
    requires forall x :: x in init ==> le(x, last)
    requires IsNormalForm(front, init, le, same)
    ensures IsNormalForm(if same(last, front[|front| - 1]) then front else front + [last], init + [last], le, same)
  {
    hide Preorder, TotalOrder, Classes, Least, Represented;
    var f, xs := front[|front| - 1], init + [last];
    forall i | 0 <= i < |front|
      ensures Least(front[i], xs, le, same)
    {
      LeastMore(front[i], init, last, le, same);
    }
    SameAsLast(init, last, front, le, same);
    RepresentedMore(init, last, front, le, same);
    if !same(last, f) {
      LastIsNew(init, last, front, le, same);
    }
  }

  /** A class that `last` shares is the class of the last one kept. */
  lemma {:induction false} SameAsLast<T(!new)>(init: seq<T>, last: T, front: seq<T>,
          le: (T, T) -> bool, same: (T, T) -> bool)
    requires TotalOrder(le) && Classes(le, same) && front != [] && le(front[|front| - 1], last)
    requires forall i, j :: 0 <= i < j < |front| ==> le(front[i], front[j])
    requires forall x :: x in init ==> Represented(x, front, same)
    ensures forall y :: y in init && same(y, last) ==> same(last, front[|front| - 1])
  {
    var f := front[|front| - 1];
    forall y | y in init && same(y, last)
      ensures same(last, f)
    {
      assert Represented(y, front, same);
      var k :| 0 <= k < |front| && same(y, front[k]);
      assert k < |front| - 1 ==> le(front[k], f);
      Between(front[k], f, last, le, same);
    }
  }

  lemma {:induction false} LastIsNew<T(!new)>(init: seq<T>, last: T, front: seq<T>,
          le: (T, T) -> bool, same: (T, T) -> bool)
    requires TotalOrder(le) && Classes(le, same)
    requires forall y :: y in init ==> !same(y, last)
    requires forall i :: 0 <= i < |front| ==> front[i] in init
    ensures Least(last, init + [last], le, same)
    ensures forall i :: 0 <= i < |front| ==> !same(front[i], last)
  {
  }

  /** An element that comes later in the order does not unseat the least one. */
  lemma {:induction false} LeastMore<T(!new)>(x: T, init: seq<T>, last: T, le: (T, T) -> bool, same: (T, T) -> bool)
    requires Least(x, init, le, same) && le(x, last)
    ensures Least(x, init + [last], le, same)
  {
  }

  lemma {:induction false} Between<T(!new)>(x: T, f: T, last: T, le: (T, T) -> bool, same: (T, T) -> bool)
    requires Classes(le, same) && le(x, f) && le(f, last)
    ensures same(x, last) ==> same(last, f)
  {
  }

  lemma {:induction false} RepresentedMore<T(!new)>(init: seq<T>, last: T, front: seq<T>,
          le: (T, T) -> bool, same: (T, T) -> bool)
    requires Classes(le, same) && front != []
    requires forall x :: x in init ==> Represented(x, front, same)
    ensures var out := if same(last, front[|front| - 1]) then front else front + [last];
            forall x :: x in init + [last] ==> Represented(x, out, same)
  {
    var out := if same(last, front[|front| - 1]) then front else front + [last];
    forall x | x in init + [last]
      ensures Represented(x, out, same)
    {
      if x in init {
        assert Represented(x, front, same);
        var k :| 0 <= k < |front| && same(x, front[k]);
        assert out[k] == front[k];
      } else {
        assert same(x, out[|out| - 1]);
      }
    }
  }

  lemma NormalFormCorrect<T(!new)>(xs: seq<T>, le: (T, T) -> bool, same: (T, T) -> bool)
    requires TotalOrder(le) && Classes(le, same)
    ensures IsNormalForm(NormalForm(xs, le, same), xs, le, same)
  {
    var sorted := Sort(xs, le);
    SortCorrect(xs, le);
    DedupeCorrect(sorted, le, same);
    var out := NormalForm(xs, le, same);
    forall i | 0 <= i < |out|
      ensures Least(out[i], xs, le, same)
    {
      assert Least(out[i], sorted, le, same);
    }
  }

  // ----- it does not depend on order or repetition -------------------------

  ghost predicate SameElements<T(!new)>(xs: seq<T>, ys: seq<T>) {
    forall x :: x in xs <==> x in ys
  }

  lemma {:induction false} IncreasingUnique<T(!new)>(a: seq<T>, b: seq<T>, le: (T, T) -> bool)
    requires TotalOrder(le) && SameElements(a, b)
    requires forall i, j :: 0 <= i < j < |a| ==> le(a[i], a[j]) && a[i] != a[j]
    requires forall i, j :: 0 <= i < j < |b| ==> le(b[i], b[j]) && b[i] != b[j]
    ensures a == b
  {
    assert b != [] ==> b[0] in a;
    if a != [] {
      assert a[0] in b && b != [] && b[0] in a;
      assert le(b[0], a[0]) && le(a[0], b[0]);
      assert a == [a[0]] + a[1..] && b == [b[0]] + b[1..];
      assert a[0] !in a[1..] && b[0] !in b[1..];
      forall x
        ensures x in a[1..] <==> x in b[1..]
      {
        assert x in a <==> x == a[0] || x in a[1..];
        assert x in b <==> x == b[0] || x in b[1..];
      }
      IncreasingUnique(a[1..], b[1..], le);
    }
  }

  /** Two inputs with the same elements have one normal form. */
  lemma NormalFormUnique<T(!new)>(a: seq<T>, xs: seq<T>, b: seq<T>, ys: seq<T>,
          le: (T, T) -> bool, same: (T, T) -> bool)
    requires TotalOrder(le) && Classes(le, same) && SameElements(xs, ys)
    requires IsNormalForm(a, xs, le, same) && IsNormalForm(b, ys, le, same)
    ensures a == b
  {
    NormalFormSubset(a, xs, b, ys, le, same);
    NormalFormSubset(b, ys, a, xs, le, same);
    IncreasingUnique(a, b, le);
  }

  lemma NormalFormSubset<T(!new)>(a: seq<T>, xs: seq<T>, b: seq<T>, ys: seq<T>,
          le: (T, T) -> bool, same: (T, T) -> bool)
    requires TotalOrder(le) && Classes(le, same) && SameElements(xs, ys)
    requires IsNormalForm(a, xs, le, same) && IsNormalForm(b, ys, le, same)
    ensures forall x :: x in a ==> x in b
  {
    forall x | x in a
      ensures x in b
    {
      assert x in ys && Represented(x, b, same);
      var j :| 0 <= j < |b| && same(x, b[j]);
      assert b[j] in xs && Least(x, xs, le, same) && Least(b[j], ys, le, same);
    }
  }

  lemma NormalFormCanonical<T(!new)>(xs: seq<T>, ys: seq<T>, le: (T, T) -> bool, same: (T, T) -> bool)
    requires TotalOrder(le) && Classes(le, same) && SameElements(xs, ys)
    ensures NormalForm(xs, le, same) == NormalForm(ys, le, same)
  {
    NormalFormCorrect(xs, le, same);
    NormalFormCorrect(ys, le, same);
    NormalFormUnique(NormalForm(xs, le, same), xs, NormalForm(ys, le, same), ys, le, same);
  }

  lemma NormalFormIdempotent<T(!new)>(xs: seq<T>, le: (T, T) -> bool, same: (T, T) -> bool)
    requires TotalOrder(le) && Classes(le, same)
    ensures NormalForm(NormalForm(xs, le, same), le, same) == NormalForm(xs, le, same)
  {
    var out := NormalForm(xs, le, same);
    NormalFormCorrect(xs, le, same);
    NormalFormCorrect(out, le, same);
    forall i | 0 <= i < |out|
      ensures Least(out[i], out, le, same) && Represented(out[i], out, same)
    {
      assert same(out[i], out[i]);
    }
    NormalFormUnique(NormalForm(out, le, same), out, out, out, le, same);
  }
}
