/** Sums of finite maps. */
module Sums {
  import opened Keys

  ghost function Total(ws: map<Id, nat>): nat
    decreases |ws|
  {
    if ws == map[] then 0
    else
      var k := Keys.Least(ws.Keys);
      ws[k] + Total(ws - {k})
  }

  lemma {:induction false} TotalPick(ws: map<Id, nat>, k: Id)
    requires k in ws
    ensures Total(ws) == ws[k] + Total(ws - {k})
    decreases |ws|
  {
    var m := Keys.Least(ws.Keys);
    if k != m {
      TotalPick(ws - {m}, k);
      TotalPick(ws - {k}, m);
      assert ws - {m} - {k} == ws - {k} - {m};
    }
  }

  lemma TotalUpdate(ws: map<Id, nat>, k: Id, v: nat)
    requires k in ws
    ensures Total(ws[k := v]) == Total(ws) - ws[k] + v
  {
    TotalPick(ws, k);
    TotalPick(ws[k := v], k);
    assert ws[k := v] - {k} == ws - {k};
  }

  lemma {:induction false} TotalBelow(a: map<Id, nat>, b: map<Id, nat>)
    requires a.Keys == b.Keys && forall k | k in a :: b[k] <= a[k]
    ensures Total(b) <= Total(a)
    decreases |a|
  {
    if a != map[] {
      var k :| k in a;
      TotalPick(a, k);
      TotalPick(b, k);
      TotalBelow(a - {k}, b - {k});
    }
  }

  lemma TotalStrictlyBelow(a: map<Id, nat>, b: map<Id, nat>, d: Id)
    requires a.Keys == b.Keys && (forall k | k in a :: b[k] <= a[k]) && d in a && b[d] < a[d]
    ensures Total(b) < Total(a)
  {
    TotalPick(a, d);
    TotalPick(b, d);
    TotalBelow(a - {d}, b - {d});
  }

  /** n keys of one weight. */
  function Times(n: nat, v: nat): nat {
    if n == 0 then 0 else Times(n - 1, v) + v
  }

  lemma {:induction false} TimesGrows(n: nat, m: nat, v: nat)
    requires n <= m
    ensures Times(n, v) <= Times(m, v)
  {
    if n < m {
      TimesGrows(n, m - 1, v);
    }
  }

  /** Adding keys of one weight. */
  lemma {:induction false} TotalExtend(a: map<Id, nat>, b: map<Id, nat>, ids: seq<Id>, v: nat)
    requires Increasing(ids) && b.Keys == a.Keys + Elements(ids) && a.Keys !! Elements(ids)
    requires (forall d | d in a :: b[d] == a[d]) && (forall d | d in Elements(ids) :: b[d] == v)
    ensures Total(b) == Total(a) + Times(|ids|, v)
    decreases |ids|
  {
    if ids == [] {
      assert b == a;
    } else {
      var n := |ids| - 1;
      LastElement(ids);
      WithoutLast(a.Keys, b, Elements(ids[..n]), ids[n]);
      TotalExtend(a, b - {ids[n]}, ids[..n], v);
      TotalPick(b, ids[n]);
    }
  }

  lemma WithoutLast(a: set<Id>, b: map<Id, nat>, most: set<Id>, last: Id)
    requires b.Keys == a + (most + {last}) && last !in a && last !in most
    ensures (b - {last}).Keys == a + most
  {
  }

  lemma LastElement(ids: seq<Id>)
    requires Increasing(ids) && ids != []
    ensures var n := |ids| - 1;
      Elements(ids) == Elements(ids[..n]) + {ids[n]} && ids[n] !in Elements(ids[..n]) && Increasing(ids[..n])
  {
    var n := |ids| - 1;
    assert ids == ids[..n] + [ids[n]];
  }
}
