/** Byte-wise text order, which is how SQLite compares and sorts TEXT columns. */
module Text {

  predicate Leq(a: string, b: string) {
    if a == "" then true
    else if b == "" then false
    else if a[0] == b[0] then Leq(a[1..], b[1..])
    else a[0] < b[0]
  }

  predicate Less(a: string, b: string) {
    Leq(a, b) && a != b
  }

  lemma LeqTotal(a: string, b: string)
    ensures Leq(a, b) || Leq(b, a)
  {
  }

  lemma LeqAntisymmetric(a: string, b: string)
    requires Leq(a, b) && Leq(b, a)
    ensures a == b
  {
    if a != "" && b != "" {
      LeqAntisymmetric(a[1..], b[1..]);
      assert a == [a[0]] + a[1..] && b == [b[0]] + b[1..];
    }
  }

  lemma LeqTransitive(a: string, b: string, c: string)
    requires Leq(a, b) && Leq(b, c)
    ensures Leq(a, c)
  {
    if a != "" && a[0] == b[0] && b[0] == c[0] {
      LeqTransitive(a[1..], b[1..], c[1..]);
    }
  }

  /** A common prefix does not affect the order. */
  lemma LeqPrefix(p: string, a: string, b: string)
    ensures Leq(p + a, p + b) == Leq(a, b)
  {
    if p == "" {
      assert p + a == a && p + b == b;
    } else {
      assert (p + a)[1..] == p[1..] + a && (p + b)[1..] == p[1..] + b;
      LeqPrefix(p[1..], a, b);
    }
  }

  /** The first difference decides. */
  lemma LeqAt(a: string, b: string, k: nat)
    requires k < |a| && k < |b| && a[..k] == b[..k] && a[k] != b[k]
    ensures Leq(a, b) <==> a[k] < b[k]
  {
    assert a == a[..k] + a[k..] && b == b[..k] + b[k..];
    LeqPrefix(a[..k], a[k..], b[k..]);
  }

  /** Between texts whose equal-length heads differ, the heads decide. */
  lemma {:induction false} LessHead(p: string, q: string, a: string, b: string)
    requires |p| == |q| && Less(p, q)
    ensures Less(p + a, q + b)
  {
    assert (p + a)[1..] == p[1..] + a && (q + b)[1..] == q[1..] + b;
    if p[0] == q[0] {
      assert p == [p[0]] + p[1..] && q == [q[0]] + q[1..];
      LessHead(p[1..], q[1..], a, b);
    }
    assert (p + a)[..|p|] == p && (q + b)[..|q|] == q;
  }

  lemma LeastExists(s: set<string>)
    requires s != {}
    ensures exists m :: m in s && forall x | x in s :: Leq(m, x)
  {
    var y :| y in s;
    LeqTotal(y, y);
    if s == {y} {
    } else {
      LeastExists(s - {y});
      var m :| m in s - {y} && forall x | x in s - {y} :: Leq(m, x);
      LeqTotal(m, y);
      assert forall x | x in s :: x == y || x in s - {y};
      if !Leq(m, y) {
        forall x | x in s ensures Leq(y, x) {
          if x != y { LeqTransitive(y, m, x); }
        }
      }
    }
  }

  /** `SELECT MIN(column)` over a nonempty set of texts. */
  function Least(s: set<string>): (m: string)
    requires s != {}
    ensures m in s && forall x | x in s :: Leq(m, x)
  {
    LeastExists(s);
    assert forall a, b | a in s && b in s && Leq(a, b) && Leq(b, a) :: a == b by {
      forall a, b | a in s && b in s && Leq(a, b) && Leq(b, a) ensures a == b {
        LeqAntisymmetric(a, b);
      }
    }
    var m :| m in s && forall x | x in s :: Leq(m, x);
    m
  }

  /** `ORDER BY name`: every member once, in text order. */
  function Sorted(s: set<string>): (r: seq<string>)
    ensures forall x :: x in r <==> x in s
    ensures forall i, j | 0 <= i < j < |r| :: Less(r[i], r[j])
    decreases |s|
  {
    if s == {} then []
    else
      var m := Least(s);
      [m] + Sorted(s - {m})
  }
}

/** Identifiers order by value: NewID's text order is its numeric order (see Ids). */
module Keys {
  type Id = nat

  ghost predicate IsLeast(m: Id, s: set<Id>) {
    m in s && forall x | x in s :: m <= x
  }

  lemma {:induction false} LeastExists(s: set<Id>)
    requires s != {}
    ensures exists m :: IsLeast(m, s)
  {
    var y :| y in s;
    if s == {y} {
      assert IsLeast(y, s);
    } else {
      LeastExists(s - {y});
      var m :| IsLeast(m, s - {y});
      forall x | x in s ensures m <= x || x == y {
        assert x == y || x in s - {y};
      }
      assert IsLeast(if m <= y then m else y, s);
    }
  }

  /** The oldest of some ids. */
  function Least(s: set<Id>): (m: Id)
    requires s != {}
    ensures m in s && forall x | x in s :: m <= x
  {
    LeastExists(s);
    var m :| m in s && forall x | x in s :: m <= x;
    m
  }

  /** `ORDER BY id`. */
  function Sorted(s: set<Id>): (r: seq<Id>)
    ensures forall x :: x in r <==> x in s
    ensures Increasing(r)
    decreases |s|
  {
    if s == {} then []
    else
      var m := Least(s);
      [m] + Sorted(s - {m})
  }

  predicate Increasing(ids: seq<Id>) {
    forall i, j | 0 <= i < j < |ids| :: ids[i] < ids[j]
  }

  function Elements<T>(xs: seq<T>): set<T> {
    set x | x in xs
  }

  lemma {:induction false} IncreasingCardinality(ids: seq<Id>)
    requires Increasing(ids)
    ensures |Elements(ids)| == |ids|
  {
    if ids == [] {
      assert Elements(ids) == {};
    } else {
      IncreasingCardinality(ids[1..]);
      assert Elements(ids) == Elements(ids[1..]) + {ids[0]};
      assert ids[0] !in Elements(ids[1..]);
    }
  }
}
