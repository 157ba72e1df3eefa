/** Append-only journals: a row per event, the last row of an id wins. */
module Journals {
  datatype Row<K, V> = Row(id: K, body: V)

  /** A failed append may still have landed (the write succeeded, the sync did not). */
  datatype Append = AppendOk | LandedUnsynced | AppendLost

  /** The rows without the last `n`. */
  function Without<K, V>(rows: seq<Row<K, V>>, n: nat): seq<Row<K, V>> {
    if n <= |rows| then rows[..|rows| - n] else []
  }

  lemma Whole<K, V>(rows: seq<Row<K, V>>)
    ensures Without(rows, 0) == rows
  {}

  lemma WithoutLast<K, V>(rows: seq<Row<K, V>>, row: Row<K, V>, n: nat)
    ensures Without(rows + [row], 0) == rows + [row]
    ensures n > 0 ==> Without(rows + [row], n) == Without(rows, n - 1)
  {}

  /** The last body of every id. */
  function FoldLast<K, V>(rows: seq<Row<K, V>>): map<K, V> {
    if rows == [] then map[]
    else
      var last := rows[|rows| - 1];
      FoldLast(rows[..|rows| - 1])[last.id := last.body]
  }

  method Fold<K(==), V>(rows: seq<Row<K, V>>) returns (folded: map<K, V>)
    ensures folded == FoldLast(rows)
  {
    folded := map[];
    for i := 0 to |rows|
      invariant folded == FoldLast(rows[..i])
    {
      assert rows[..i + 1][..i] == rows[..i];
      folded := folded[rows[i].id := rows[i].body];
    }
    assert rows[..|rows|] == rows;
  }

  /** Folding a concatenation: the later rows win. */
  lemma {:induction false} FoldConcat<K, V>(a: seq<Row<K, V>>, b: seq<Row<K, V>>)
    ensures FoldLast(a + b) == FoldLast(a) + FoldLast(b)
  {
    if b == [] {
      assert a + b == a;
    } else {
      FoldConcat(a, b[..|b| - 1]);
      assert (a + b)[..|a + b| - 1] == a + b[..|b| - 1];
    }
  }

  /** The folded body of an id is the body of its last row. */
  lemma {:induction false} FoldIsLast<K, V>(rows: seq<Row<K, V>>, id: K)
    ensures id in FoldLast(rows) <==> exists i :: 0 <= i < |rows| && rows[i].id == id
    ensures id in FoldLast(rows) ==>
      exists i :: 0 <= i < |rows| && rows[i] == Row(id, FoldLast(rows)[id]) &&
        (forall j :: i < j < |rows| ==> rows[j].id != id)
  {
    if rows != [] {
      var n := |rows| - 1;
      FoldIsLast(rows[..n], id);
      if rows[n].id == id {
        assert rows[n] == Row(id, FoldLast(rows)[id]);
      } else if id in FoldLast(rows[..n]) {
        var i :| 0 <= i < n && rows[..n][i] == Row(id, FoldLast(rows[..n])[id]) &&
          forall j :: i < j < n ==> rows[..n][j].id != id;
        assert rows[i] == Row(id, FoldLast(rows)[id]);
        forall j | i < j < |rows| ensures rows[j].id != id {
          if j < n { assert rows[..n][j] == rows[j]; }
        }
      } else {
        forall i | 0 <= i < |rows| ensures rows[i].id != id {
          if i < n { assert rows[..n][i] == rows[i]; }
        }
      }
    }
  }
}
