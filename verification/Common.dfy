/** Small shared shapes: optional values, errors, and sums. */
module Common {

  datatype Option<+T> = None | Some(value: T)

  datatype Result<+T, +E> = Ok(value: T) | Err(error: E)

  // ---- sums over the keys of a map; the order of the keys does not matter ----

  ghost function SumOver(keys: set<int>, f: map<int, int>): int
    requires keys <= f.Keys
    decreases |keys|
  {
    if exists k :: k in keys then
      var k :| k in keys;
      f[k] + SumOver(keys - {k}, f)
    else 0
  }

  lemma {:induction false} SumOverPick(keys: set<int>, k: int, f: map<int, int>)
    requires keys <= f.Keys && k in keys
    ensures SumOver(keys, f) == f[k] + SumOver(keys - {k}, f)
    decreases |keys|
  {
    var p :| p in keys && SumOver(keys, f) == f[p] + SumOver(keys - {p}, f);
    if p != k {
      SumOverPick(keys - {p}, k, f);
      SumOverPick(keys - {k}, p, f);
      assert keys - {p} - {k} == keys - {k} - {p};
    }
  }

  lemma {:induction false} SumOverSplit(a: set<int>, b: set<int>, f: map<int, int>)
    requires a !! b && a + b <= f.Keys
    ensures SumOver(a + b, f) == SumOver(a, f) + SumOver(b, f)
    decreases |a|
  {
    if k :| k in a {
      SumOverPick(a, k, f);
      SumOverPick(a + b, k, f);
      assert a + b - {k} == (a - {k}) + b;
      SumOverSplit(a - {k}, b, f);
    } else {
      assert forall x :: x in a + b <==> x in b;
      assert a + b == b;
    }
  }

  lemma {:induction false} SumOverSame(keys: set<int>, f: map<int, int>, g: map<int, int>)
    requires keys <= f.Keys && keys <= g.Keys && forall k :: k in keys ==> f[k] == g[k]
    ensures SumOver(keys, f) == SumOver(keys, g)
    decreases |keys|
  {
    if k :| k in keys {
      SumOverPick(keys, k, f);
      SumOverPick(keys, k, g);
      SumOverSame(keys - {k}, f, g);
    }
  }
}
