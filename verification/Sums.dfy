/** Finite sums over the rows of a table, as `SUM` aggregates compute them. */
module Sums {

  ghost function Sum<K>(keys: set<K>, f: K -> int): int
  {
    if keys == {} then 0 else
      var k :| k in keys;
      f(k) + Sum(keys - {k}, f)
  }

  lemma {:induction false} SumPick<K>(keys: set<K>, f: K -> int, k: K)
    requires k in keys
    ensures Sum(keys, f) == f(k) + Sum(keys - {k}, f)
    decreases keys
  {
    var p :| p in keys && Sum(keys, f) == f(p) + Sum(keys - {p}, f);
    if p != k {
      SumPick(keys - {p}, f, k);
      SumPick(keys - {k}, f, p);
      assert keys - {p} - {k} == keys - {k} - {p};
    }
  }

  lemma {:induction false} SumAgree<K>(keys: set<K>, f: K -> int, g: K -> int)
    requires forall k :: k in keys ==> f(k) == g(k)
    ensures Sum(keys, f) == Sum(keys, g)
    decreases keys
  {
    if keys != {} {
      var k :| k in keys;
      SumPick(keys, f, k);
      SumPick(keys, g, k);
      SumAgree(keys - {k}, f, g);
    }
  }

  /** One column of a table, as a function of the row's key. */
  function Cells<K, V>(rows: map<K, V>, column: V -> int): K -> int
  {
    k => if k in rows then column(rows[k]) else 0
  }

  /** The sum of a column over all rows of a table. */
  ghost function Total<K, V>(rows: map<K, V>, column: V -> int): int
  {
    Sum(rows.Keys, Cells(rows, column))
  }

  /** Writing one row changes a total by exactly that row's change. */
  lemma TotalWrite<K, V>(rows: map<K, V>, k: K, v: V, column: V -> int)
    ensures Total(rows[k := v], column) == Total(rows, column) - Cells(rows, column)(k) + column(v)
  {
    var rows' := rows[k := v];
    SumPick(rows'.Keys, Cells(rows', column), k);
    assert rows'.Keys - {k} == rows.Keys - {k};
    SumAgree(rows.Keys - {k}, Cells(rows, column), Cells(rows', column));
    if k in rows {
      SumPick(rows.Keys, Cells(rows, column), k);
    } else {
      assert rows.Keys - {k} == rows.Keys;
    }
  }

  lemma {:induction false} SumOfZeros<K>(keys: set<K>, f: K -> int)
    requires forall k :: k in keys ==> f(k) == 0
    ensures Sum(keys, f) == 0
    decreases keys
  {
    if keys != {} {
      var k :| k in keys;
      SumPick(keys, f, k);
      SumOfZeros(keys - {k}, f);
    }
  }

  /** Totals are additive in the column. */
  lemma {:induction false} SumAdds<K>(keys: set<K>, f: K -> int, g: K -> int, h: K -> int)
    requires forall k :: k in keys ==> h(k) == f(k) + g(k)
    ensures Sum(keys, h) == Sum(keys, f) + Sum(keys, g)
    decreases keys
  {
    if keys != {} {
      var k :| k in keys;
      SumPick(keys, f, k);
      SumPick(keys, g, k);
      SumPick(keys, h, k);
      SumAdds(keys - {k}, f, g, h);
    }
  }
}
