/** Sums over maps and lists. */
module Totals {

  /** The sum of a map's values. */
  ghost function Total(m: map<string, int>): int {
    if m == map[] then 0 else var k :| k in m; m[k] + Total(m - {k})
  }

  lemma {:induction false} TotalRemove(m: map<string, int>, k: string)
    requires k in m
    ensures Total(m) == m[k] + Total(m - {k})
    decreases |m|
  {
    var c :| c in m && Total(m) == m[c] + Total(m - {c});
    if c != k {
      assert |(m - {c}).Keys| < |m.Keys| by { assert m.Keys == (m - {c}).Keys + {c}; }
      assert |(m - {k}).Keys| < |m.Keys| by { assert m.Keys == (m - {k}).Keys + {k}; }
      TotalRemove(m - {c}, k);
      TotalRemove(m - {k}, c);
      assert m - {c} - {k} == m - {k} - {c};
    }
  }

  function ValueOf(m: map<string, int>, k: string): int { if k in m then m[k] else 0 }

  lemma TotalUpdate(m: map<string, int>, k: string, v: int)
    ensures Total(m[k := v]) == Total(m) - ValueOf(m, k) + v
  {
    var m' := m[k := v];
    TotalRemove(m', k);
    assert m' - {k} == m - {k};
    if k in m { TotalRemove(m, k); } else { assert m - {k} == m; }
  }

  /** The part of a map whose keys satisfy a predicate. */
  function Select(m: map<string, int>, p: string -> bool): map<string, int> {
    map k | k in m && p(k) :: m[k]
  }

  lemma SelectUpdate(m: map<string, int>, p: string -> bool, k: string, v: int)
    ensures Total(Select(m[k := v], p))
         == if p(k) then Total(Select(m, p)) - ValueOf(m, k) + v else Total(Select(m, p))
  {
    if p(k) {
      assert Select(m[k := v], p) == Select(m, p)[k := v];
      TotalUpdate(Select(m, p), k, v);
    } else {
      assert Select(m[k := v], p) == Select(m, p);
    }
  }
}
