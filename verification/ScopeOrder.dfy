/** The records of an application scope and the orders that internal/assessment/scope.go
    sorts them by. */
module ScopeOrder {
  import opened Origins
  import opened NormalForms
  import opened RowOrders

  datatype Exclusion = Exclusion(targetID: string, origin: string, verb: string, pathPattern: string, reason: string)

  // ----- origins -----------------------------------------------------------

  predicate OriginLe(a: ApprovedOrigin, b: ApprovedOrigin) {
    var front, front' := [a.targetID, a.scheme, a.host], [b.targetID, b.scheme, b.host];
    if front != front' then RowLe(front, front')
    else if a.port != b.port then a.port < b.port
    else RowLe([a.pathPrefix], [b.pathPrefix])
  }

  predicate OriginSame(a: ApprovedOrigin, b: ApprovedOrigin) {
    a == b
  }

  lemma OriginOrder()
    ensures TotalOrder(OriginLe) && Classes(OriginLe, OriginSame)
  {
    forall x, y
      ensures OriginLe(x, x) && (OriginLe(x, y) || OriginLe(y, x)) && (OriginLe(x, y) && OriginLe(y, x) ==> x == y)
    {
      RowLeTotal([x.targetID, x.scheme, x.host], [y.targetID, y.scheme, y.host]);
      RowLeTotal([x.pathPrefix], [y.pathPrefix]);
      RowLeTotal([x.pathPrefix], [x.pathPrefix]);
    }
    forall x, y, z | OriginLe(x, y) && OriginLe(y, z)
      ensures OriginLe(x, z)
    {
      OriginLeTransitive(x, y, z);
    }
  }

  lemma OriginLeTransitive(x: ApprovedOrigin, y: ApprovedOrigin, z: ApprovedOrigin)
    requires OriginLe(x, y) && OriginLe(y, z)
    ensures OriginLe(x, z)
  {
    var a, b, c := [x.targetID, x.scheme, x.host], [y.targetID, y.scheme, y.host], [z.targetID, z.scheme, z.host];
    if a != b && b != c {
      RowLeTransitive(a, b, c);
      RowLeTotal(a, b);
    } else if a == b == c && x.port == y.port == z.port {
      RowLeTransitive([x.pathPrefix], [y.pathPrefix], [z.pathPrefix]);
    }
  }

  // ----- exclusions --------------------------------------------------------

  function Key(e: Exclusion): seq<string> {
    [e.targetID, e.origin, e.verb, e.pathPattern]
  }

  predicate ExclusionLe(a: Exclusion, b: Exclusion) {
    if Key(a) != Key(b) then RowLe(Key(a), Key(b)) else RowLe([a.reason], [b.reason])
  }

  /** A repeat: everything but the reason is equal. */
  predicate ExclusionSame(a: Exclusion, b: Exclusion) {
    Key(a) == Key(b)
  }

  lemma ExclusionOrder()
    ensures TotalOrder(ExclusionLe) && Classes(ExclusionLe, ExclusionSame)
  {
    forall x, y
      ensures ExclusionLe(x, x) && (ExclusionLe(x, y) || ExclusionLe(y, x))
      ensures ExclusionLe(x, y) && ExclusionLe(y, x) ==> x == y
    {
      RowLeTotal(Key(x), Key(y));
      RowLeTotal([x.reason], [y.reason]);
      RowLeTotal([x.reason], [x.reason]);
      KeyInjective(x, y);
    }
    forall x, y, z | ExclusionLe(x, y) && ExclusionLe(y, z)
      ensures ExclusionLe(x, z) && (ExclusionSame(x, z) ==> ExclusionSame(x, y))
    {
      ExclusionLeTransitive(x, y, z);
    }
  }

  lemma KeyInjective(x: Exclusion, y: Exclusion)
    ensures x == y <==> Key(x) == Key(y) && [x.reason] == [y.reason]
  {
    if Key(x) == Key(y) && [x.reason] == [y.reason] {
      assert Key(x)[0] == Key(y)[0] && Key(x)[1] == Key(y)[1] && Key(x)[2] == Key(y)[2] && Key(x)[3] == Key(y)[3];
      assert [x.reason][0] == [y.reason][0];
    }
  }

  lemma ExclusionLeTransitive(x: Exclusion, y: Exclusion, z: Exclusion)
    requires ExclusionLe(x, y) && ExclusionLe(y, z)
    ensures ExclusionLe(x, z) && (Key(x) == Key(z) ==> Key(x) == Key(y))
  {
    var a, b, c := Key(x), Key(y), Key(z);
    if a != b && b != c {
      RowLeTransitive(a, b, c);
      RowLeTotal(a, b);
    } else if a == b == c {
      RowLeTransitive([x.reason], [y.reason], [z.reason]);
    }
  }
}
