// Sums of a column over the rows of a table.
module Totals {

  ghost function SumOf<K, R>(table: map<K, R>, column: R -> int): int
    decreases |table|
  {
    if table == map[] then 0
    else
      var k :| k in table;
      column(table[k]) + SumOf(table - {k}, column)
  }

  // Any row can be taken out first.
  lemma {:induction false} SumRemove<K, R>(table: map<K, R>, k: K, column: R -> int)
    requires k in table
    ensures SumOf(table, column) == column(table[k]) + SumOf(table - {k}, column)
    decreases |table|
  {
    var first :| first in table
              && SumOf(table, column) == column(table[first]) + SumOf(table - {first}, column);
    if first != k {
      SumRemove(table - {first}, k, column);
      SumRemove(table - {k}, first, column);
      assert table - {first} - {k} == table - {k} - {first};
    }
  }

  // Writing one row moves the sum by the difference that row makes.
  lemma SumUpdate<K, R>(table: map<K, R>, k: K, row: R, column: R -> int)
    ensures SumOf(table[k := row], column)
         == SumOf(table, column) + column(row) - (if k in table then column(table[k]) else 0)
  {
    SumRemove(table[k := row], k, column);
    assert table[k := row] - {k} == table - {k};
    if k in table {
      SumRemove(table, k, column);
    } else {
      assert table - {k} == table;
    }
  }

  // Columns that agree on every row have the same sum.
  lemma {:induction false} SumSame<K, R>(table: map<K, R>, f: R -> int, g: R -> int)
    requires forall k :: k in table ==> f(table[k]) == g(table[k])
    ensures SumOf(table, f) == SumOf(table, g)
    decreases |table|
  {
    if table != map[] {
      var k :| k in table;
      SumRemove(table, k, f);
      SumRemove(table, k, g);
      SumSame(table - {k}, f, g);
    }
  }

  lemma {:induction false} SumNonNegative<K, R>(table: map<K, R>, column: R -> int)
    requires forall k :: k in table ==> column(table[k]) >= 0
    ensures SumOf(table, column) >= 0
    decreases |table|
  {
    if table != map[] {
      var k :| k in table;
      SumRemove(table, k, column);
      SumNonNegative(table - {k}, column);
    }
  }

  lemma {:induction false} SumZero<K, R>(table: map<K, R>, column: R -> int)
    requires forall k :: k in table ==> column(table[k]) == 0
    ensures SumOf(table, column) == 0
    decreases |table|
  {
    if table != map[] {
      var k :| k in table;
      SumRemove(table, k, column);
      SumZero(table - {k}, column);
    }
  }

  // ---- sums over a set of keys ----

  ghost function SumOver<K>(keys: set<K>, f: K -> int): int
    decreases |keys|
  {
    if keys == {} then 0
    else
      var k :| k in keys;
      f(k) + SumOver(keys - {k}, f)
  }

  lemma {:induction false} SumOverRemove<K>(keys: set<K>, k: K, f: K -> int)
    requires k in keys
    ensures SumOver(keys, f) == f(k) + SumOver(keys - {k}, f)
    decreases |keys|
  {
    var first :| first in keys && SumOver(keys, f) == f(first) + SumOver(keys - {first}, f);
    if first != k {
      SumOverRemove(keys - {first}, k, f);
      SumOverRemove(keys - {k}, first, f);
      assert keys - {first} - {k} == keys - {k} - {first};
    }
  }

  lemma {:induction false} SumOverSame<K>(keys: set<K>, f: K -> int, g: K -> int)
    requires forall k :: k in keys ==> f(k) == g(k)
    ensures SumOver(keys, f) == SumOver(keys, g)
    decreases |keys|
  {
    if keys != {} {
      var k :| k in keys;
      SumOverRemove(keys, k, f);
      SumOverRemove(keys, k, g);
      SumOverSame(keys - {k}, f, g);
    }
  }

  // Two functions that differ at one key only.
  lemma SumOverChange<K>(keys: set<K>, f: K -> int, g: K -> int, at: K)
    requires forall k :: k in keys && k != at ==> f(k) == g(k)
    ensures SumOver(keys, g) == SumOver(keys, f) + (if at in keys then g(at) - f(at) else 0)
  {
    if at in keys {
      SumOverRemove(keys, at, f);
      SumOverRemove(keys, at, g);
      SumOverSame(keys - {at}, f, g);
    } else {
      SumOverSame(keys, f, g);
    }
  }
}
