/** The order of records by their text fields, as Go's sort callbacks compare them. */
module RowOrders {
  import opened Text
  import opened NormalForms

  /** Less or equal in the field order given, the first difference deciding. */
  predicate RowLe(a: seq<string>, b: seq<string>)
    decreases a
  {
    if a == [] || b == [] then a == []
    else if a[0] != b[0] then StrLess(a[0], b[0])
    else RowLe(a[1..], b[1..])
  }

  lemma {:induction false} RowLeTotal(a: seq<string>, b: seq<string>)
    ensures RowLe(a, a)
    ensures RowLe(a, b) || RowLe(b, a)
    ensures RowLe(a, b) && RowLe(b, a) ==> a == b
    decreases a
  {
    if a != [] {
      RowLeTotal(a[1..], a[1..]);
      if b != [] {
        StrLessTotal(a[0], b[0]);
        RowLeTotal(a[1..], b[1..]);
        assert a == [a[0]] + a[1..] && b == [b[0]] + b[1..];
      }
    }
  }

  lemma {:induction false} RowLeTransitive(a: seq<string>, b: seq<string>, c: seq<string>)
    requires RowLe(a, b) && RowLe(b, c)
    ensures RowLe(a, c)
    decreases a
  {
    if a != [] && b != [] && c != [] {
      if a[0] == b[0] == c[0] {
        RowLeTransitive(a[1..], b[1..], c[1..]);
      } else if a[0] != b[0] && b[0] != c[0] {
        StrLessTransitive(a[0], b[0], c[0]);
        StrLessTotal(a[0], c[0]);
      }
    }
  }

  // ----- single strings ----------------------------------------------------

  predicate StrLe(a: string, b: string) {
    a == b || StrLess(a, b)
  }

  predicate StrSame(a: string, b: string) {
    a == b
  }

  lemma {:induction false} StrOrder()
    ensures TotalOrder(StrLe) && Classes(StrLe, StrSame)
  {
    forall a, b
      ensures StrLe(a, b) || StrLe(b, a)
      ensures StrLe(a, b) && StrLe(b, a) ==> a == b
    {
      StrLessTotal(a, b);
    }
    forall a, b, c | StrLe(a, b) && StrLe(b, c)
      ensures StrLe(a, c)
    {
      if a != b && b != c {
        StrLessTransitive(a, b, c);
      }
    }
  }
}
