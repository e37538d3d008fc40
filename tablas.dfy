/** The two writes of the repositories that can move or collide on a
    primary key: an `INSERT` under a given key, and an `UPDATE ... WHERE
    key = id` whose new values may include the key column itself. A table
    is a map from the key to the row; `clave` reads a row's key column. */
module Tablas {
  import opened Common
  import opened Lists

  /** Every stored row sits under its own key. */
  predicate ClavesPropias<T>(rows: map<int, T>, clave: T -> int)
  {
    forall k :: k in rows ==> clave(rows[k]) == k
  }

  /** Under their own keys, two different keys hold two different rows. */
  lemma PropiasInyectiva<T>(rows: map<int, T>, clave: T -> int)
    requires ClavesPropias(rows, clave)
    ensures Injective(rows)
  {
    forall a, b | a in rows && b in rows && rows[a] == rows[b]
      ensures a == b
    {
      assert clave(rows[a]) == a && clave(rows[b]) == b;
    }
  }

  /** A stored row is found under its own key. */
  lemma ClaveDeFila<T>(rows: map<int, T>, clave: T -> int, v: T)
    requires ClavesPropias(rows, clave) && v in rows.Values
    ensures clave(v) in rows && rows[clave(v)] == v
  {
    if forall k :: k in rows ==> rows[k] != v {
      assert false;
    }
    var k :| k in rows && rows[k] == v;
  }

  /** `save` of a body whose key is `k` finds a stored row to write over.
      Otherwise it inserts, and the key column, generated by the sequence,
      is left out of the `INSERT`, so a key the body names plays no part. */
  predicate ClaveGuardada<T>(rows: map<int, T>, k: Option<int>)
  {
    k.Some? && k.value in rows
  }

  /** A write either succeeds with the new table or is refused because the
      key it needs is taken. */
  datatype Escritura<T> = Escrita(rows: map<int, T>) | ClaveDuplicada

  /** `INSERT` of `row` under its own key. */
  function Insertar<T>(rows: map<int, T>, row: T, clave: T -> int): (w: Escritura<T>)
    ensures w == ClaveDuplicada <==> clave(row) in rows
    ensures w.Escrita? ==> w.rows.Keys == rows.Keys + {clave(row)} && w.rows[clave(row)] == row
    ensures w.Escrita? ==> forall k :: k in rows ==> w.rows[k] == rows[k]
    ensures w.Escrita? && ClavesPropias(rows, clave) ==> ClavesPropias(w.rows, clave)
  {
    if clave(row) in rows then ClaveDuplicada else Escrita(rows[clave(row) := row])
  }

  /** `UPDATE ... WHERE key = id` that leaves the row `row`: in place when
      its key is still `id`, moved to its new key when that key is free, and
      refused when another row holds it. */
  function ActualizarPorClave<T>(rows: map<int, T>, id: int, row: T, clave: T -> int): (w: Escritura<T>)
    requires id in rows
    ensures w == ClaveDuplicada <==> clave(row) != id && clave(row) in rows
    ensures w.Escrita? ==> w.rows.Keys == rows.Keys - {id} + {clave(row)} && w.rows[clave(row)] == row
    ensures w.Escrita? ==> forall k :: k in rows && k != id ==> k in w.rows && w.rows[k] == rows[k]
    ensures w.Escrita? && clave(row) != id ==> id !in w.rows
    ensures w.Escrita? && ClavesPropias(rows, clave) ==> ClavesPropias(w.rows, clave)
  {
    if clave(row) == id then Escrita(rows[id := row])
    else if clave(row) in rows then ClaveDuplicada
    else Escrita((rows - {id})[clave(row) := row])
  }

  /** A write that keeps the key is a plain in-place update and is never
      refused. */
  lemma MismaClave<T>(rows: map<int, T>, id: int, row: T, clave: T -> int)
    requires id in rows && clave(row) == id
    ensures ActualizarPorClave(rows, id, row, clave) == Escrita(rows[id := row])
    ensures |ActualizarPorClave(rows, id, row, clave).rows| == |rows|
  {
    assert rows[id := row].Keys == rows.Keys;
  }

  /** A successful move keeps the number of rows. */
  lemma MoverConserva<T>(rows: map<int, T>, id: int, row: T, clave: T -> int)
    requires id in rows && clave(row) != id && clave(row) !in rows
    ensures |ActualizarPorClave(rows, id, row, clave).rows| == |rows|
  {
    var m := (rows - {id})[clave(row) := row];
    assert m.Keys == (rows.Keys - {id}) + {clave(row)};
    assert |rows.Keys - {id}| == |rows.Keys| - 1;
  }
}
