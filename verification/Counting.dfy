/** Cardinalities of finite sets related by a one-to-one map. */
module Counting {
  /** A map without repeated values has as many values as keys. */
  lemma {:induction false} InjectiveCount<A, B>(m: map<A, B>)
    requires forall x, y | x in m && y in m && m[x] == m[y] :: x == y
    ensures |m.Keys| == |m.Values|
  {
    if m.Keys != {} {
      var k :| k in m;
      var n := m - {k};
      InjectiveCount(n);
      assert n.Keys == m.Keys - {k};
      forall v | v in m.Values - {m[k]} ensures v in n.Values {
        var x :| x in m && m[x] == v;
        assert x in n && n[x] == v;
      }
      forall v | v in n.Values ensures v in m.Values - {m[k]} {
        var x :| x in n && n[x] == v;
        assert x in m && m[x] == v;
      }
      assert n.Values == m.Values - {m[k]};
    }
  }

  lemma TwoParts<T>(u: set<T>, a: set<T>, b: set<T>)
    requires u == a + b && forall x | x in a :: x !in b
    ensures |u| == |a| + |b|
  {
    assert a !! b;
  }

  lemma SubsetCount<T>(a: set<T>, b: set<T>)
    requires a <= b
    ensures |a| <= |b|
    ensures |a| == |b| ==> a == b
  {
    TwoParts(b, a, b - a);
  }
}
