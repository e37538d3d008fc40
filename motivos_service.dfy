/** The motive catalogue: a table of incident motives with unique names,
    listed by name, created with a default status, renamed only to a free
    name, and deactivated rather than deleted. */
module MotivosService {
  import opened Common
  import opened Text
  import opened Lists
  import opened Entities
  import opened Tablas

  function NoEncontrada(id: int): string
  {
    "Motivo con ID " + IntToString(id) + " no encontrado"
  }

  function YaExiste(nombre: string): string
  {
    "Ya existe un motivo con el nombre \"" + nombre + "\""
  }

  const NOMBRE_OBLIGATORIO := "El nombre del motivo es obligatorio"

  /** A `Partial<Motivo>` request body, primary key included. */
  datatype MotivoData = MotivoData(
    id_motivo: Option<int>,
    nombre_motivo: Option<string>,
    estatus: Option<string>)

  function Activo(): Motivo -> bool
  {
    (m: Motivo) => m.estatus == ACTIVO
  }

  /** `ORDER BY nombre_motivo ASC`: `a` may come before `b`. */
  predicate NombreAntes(a: Motivo, b: Motivo)
  {
    StrLe(a.nombre_motivo, b.nombre_motivo)
  }

  lemma NombreAntesOrden()
    ensures TotalPreorder(NombreAntes)
  {
    forall a: Motivo, b: Motivo
      ensures NombreAntes(a, b) || NombreAntes(b, a)
    {
      StrLeTotal(a.nombre_motivo, b.nombre_motivo);
    }
    forall a: Motivo, b: Motivo, c: Motivo | NombreAntes(a, b) && NombreAntes(b, c)
      ensures NombreAntes(a, c)
    {
      StrLeTrans(a.nombre_motivo, b.nombre_motivo, c.nombre_motivo);
    }
  }

  /** findActivos: the active motives by name. */
  function FindActivos(rows: seq<Motivo>): seq<Motivo>
  {
    SortBy(Filter(rows, Activo()), NombreAntes)
  }

  /** findActivos returns every active row as often as it is stored, no
      other row, in name order. */
  lemma FindActivosExacto(rows: seq<Motivo>)
    ensures forall x :: x in FindActivos(rows) <==> x in rows && x.estatus == ACTIVO
    ensures forall x: Motivo :: x.estatus == ACTIVO ==> multiset(FindActivos(rows))[x] == multiset(rows)[x]
    ensures SortedBy(FindActivos(rows), NombreAntes)
  {
    var q := Filter(rows, Activo());
    assert forall x :: x in SortBy(q, NombreAntes) <==> x in multiset(SortBy(q, NombreAntes));
    assert forall x :: x in q <==> x in multiset(q);
    forall x: Motivo | x.estatus == ACTIVO
      ensures multiset(FindActivos(rows))[x] == multiset(rows)[x]
    {
      FilterCount(rows, Activo(), x);
    }
    NombreAntesOrden();
    SortBySorted(q, NombreAntes);
  }

  /** Some stored motive has the name `nombre`. */
  predicate NombreTomado(rows: map<int, Motivo>, nombre: string)
  {
    exists k :: k in rows && rows[k].nombre_motivo == nombre
  }

  /** A stored motive other than `id` has the name `nombre`: the unique
      column refuses to give the row `id` that name. */
  predicate NombreDeOtro(rows: map<int, Motivo>, id: int, nombre: string)
  {
    exists k :: k in rows && k != id && rows[k].nombre_motivo == nombre
  }

  /** No two rows share a name (the column is `unique`). */
  ghost predicate NombresUnicos(rows: map<int, Motivo>)
  {
    forall a, b :: a in rows && b in rows && rows[a].nombre_motivo == rows[b].nombre_motivo ==> a == b
  }

  /** The decision of create about a body, given the stored rows. */
  function ValidarCreate(rows: map<int, Motivo>, data: MotivoData): (o: Outcome)
    ensures o == Pass <==> TruthyStr(data.nombre_motivo) && !NombreTomado(rows, data.nombre_motivo.value)
    ensures !TruthyStr(data.nombre_motivo) ==> o == Fail(PlainError(NOMBRE_OBLIGATORIO))
    ensures TruthyStr(data.nombre_motivo) && NombreTomado(rows, data.nombre_motivo.value) ==>
              o == Fail(Conflict(YaExiste(data.nombre_motivo.value)))
  {
    if !TruthyStr(data.nombre_motivo) then Fail(PlainError(NOMBRE_OBLIGATORIO))
    else if NombreTomado(rows, data.nombre_motivo.value) then
      Fail(Conflict(YaExiste(data.nombre_motivo.value)))
    else Pass
  }

  /** The decision of update about a body for the existing row `actual`: the
      name is checked only when a truthy one is supplied that differs from
      the current one. */
  function ValidarUpdate(rows: map<int, Motivo>, actual: Motivo, data: MotivoData): (o: Outcome)
    ensures o == Pass <==>
      !(TruthyStr(data.nombre_motivo) && data.nombre_motivo.value != actual.nombre_motivo
        && NombreTomado(rows, data.nombre_motivo.value))
    ensures o != Pass ==> o == Fail(Conflict(YaExiste(data.nombre_motivo.value)))
    ensures data.nombre_motivo == Some(actual.nombre_motivo) ==> o == Pass
  {
    if TruthyStr(data.nombre_motivo) && data.nombre_motivo.value != actual.nombre_motivo
       && NombreTomado(rows, data.nombre_motivo.value)
    then Fail(Conflict(YaExiste(data.nombre_motivo.value)))
    else Pass
  }

  /** The row update writes: supplied keys overwrite, absent keys keep; the
      primary key is a column like the others. */
  function Actualizar(row: Motivo, data: MotivoData): (r: Motivo)
    ensures r.id_motivo == Patch(data.id_motivo, row.id_motivo)
    ensures r.nombre_motivo == Patch(data.nombre_motivo, row.nombre_motivo)
    ensures r.estatus == Patch(data.estatus, row.estatus)
  {
    Motivo(Patch(data.id_motivo, row.id_motivo),
           Patch(data.nombre_motivo, row.nombre_motivo),
           Patch(data.estatus, row.estatus))
  }

  /** The primary key column. */
  function Clave(): Motivo -> int
  {
    (m: Motivo) => m.id_motivo
  }

  /** The row create saves under the key `id`, with ACTIVO unless a truthy
      status is supplied. */
  function NuevoMotivo(id: int, data: MotivoData): (r: Motivo)
    requires TruthyStr(data.nombre_motivo)
    ensures r.id_motivo == id && r.nombre_motivo == data.nombre_motivo.value
    ensures r.estatus == (if TruthyStr(data.estatus) then data.estatus.value else ACTIVO)
  {
    Motivo(id, data.nombre_motivo.value, OrStr(data.estatus, ACTIVO))
  }

  /** When the body names the key of a stored row, create's `save` writes
      every column over it, so the stored row ends up as the fresh one. */
  lemma SobrescribirEsNuevo(row: Motivo, data: MotivoData)
    requires TruthyStr(data.nombre_motivo) && data.id_motivo == Some(row.id_motivo)
    ensures Actualizar(row, data.(estatus := Some(OrStr(data.estatus, ACTIVO))))
            == NuevoMotivo(row.id_motivo, data)
  {
  }

  class MotivosTable {
    var rows: map<int, Motivo>
    /** The next value of the serial primary key. */
    var nextId: int

    /** Every row sits under its own key. A body may name its key, so the
        sequence can lag behind the stored keys. */
    ghost predicate Valid()
      reads this
    {
      1 <= nextId && ClavesPropias(rows, Clave())
    }

    constructor ()
      ensures Valid() && rows == map[] && nextId == 1
    {
      rows := map[];
      nextId := 1;
    }

    /** findActivos over the stored rows: each active row once. */
    method FindActivosM() returns (r: seq<Motivo>)
      requires Valid()
      ensures forall x :: x in r <==> x in rows.Values && x.estatus == ACTIVO
      ensures forall x :: x in r ==> multiset(r)[x] == 1
      ensures SortedBy(r, NombreAntes)
    {
      var scan := Values(rows);
      PropiasInyectiva(rows, Clave());
      assert Distinct(scan);
      r := FindActivos(scan);
      FindActivosExacto(scan);
      UnaVez(scan, r);
    }

    method FindOne(id: int) returns (r: Result<Motivo>)
      ensures id in rows ==> r == Ok(rows[id])
      ensures id !in rows ==> r == Err(NotFound(NoEncontrada(id)))
    {
      if id in rows {
        r := Ok(rows[id]);
      } else {
        r := Err(NotFound(NoEncontrada(id)));
      }
    }

    /** create: the checks, then `save` of the body. A body naming the key
        of a stored row writes over it. Otherwise the row is inserted under
        the next value of the sequence, whatever key the body names; the
        value is consumed even when that key is taken. */
    method Create(data: MotivoData) returns (r: Result<Motivo>)
      requires Valid()
      modifies this
      ensures Valid()
      ensures ValidarCreate(old(rows), data).Fail? ==>
        r == Err(ValidarCreate(old(rows), data).error) && rows == old(rows) && nextId == old(nextId)
      ensures ValidarCreate(old(rows), data) == Pass && !ClaveGuardada(old(rows), data.id_motivo) ==>
        && nextId == old(nextId) + 1
        && (old(nextId) in old(rows) ==> r == Err(QueryFailed(UNIQUE_VIOLATION)) && rows == old(rows))
        && (old(nextId) !in old(rows) ==>
              r == Ok(NuevoMotivo(old(nextId), data)) && rows == old(rows)[old(nextId) := r.value])
      ensures ValidarCreate(old(rows), data) == Pass && ClaveGuardada(old(rows), data.id_motivo) ==>
        var k := data.id_motivo.value;
        && nextId == old(nextId)
        && r == Ok(NuevoMotivo(k, data))
        && rows == old(rows)[k := r.value]
      ensures NombresUnicos(old(rows)) ==> NombresUnicos(rows)
    {
      var v := ValidarCreate(rows, data);
      if v.Fail? {
        return Err(v.error);
      }
      if !ClaveGuardada(rows, data.id_motivo) {
        var row := NuevoMotivo(nextId, data);
        var w := Insertar(rows, row, Clave());
        nextId := nextId + 1;
        if w.ClaveDuplicada? {
          return Err(QueryFailed(UNIQUE_VIOLATION));
        }
        rows := w.rows;
        r := Ok(row);
      } else {
        var k := data.id_motivo.value;
        var row := Actualizar(rows[k], data.(estatus := Some(OrStr(data.estatus, ACTIVO))));
        SobrescribirEsNuevo(rows[k], data);
        rows := rows[k := row];
        r := Ok(row);
      }
    }

    /** update: the name check, then the `UPDATE` of the body's columns, the
        key among them, which the database refuses with 23505 when the new
        key or the new name is another row's; then the row is read back
        under `id`, which fails once the key has moved. */
    method Update(id: int, data: MotivoData) returns (r: Result<Motivo>)
      requires Valid()
      modifies this
      ensures Valid() && nextId == old(nextId)
      ensures id !in old(rows) ==> r == Err(NotFound(NoEncontrada(id))) && rows == old(rows)
      ensures id in old(rows) && ValidarUpdate(old(rows), old(rows)[id], data).Fail? ==>
        r == Err(ValidarUpdate(old(rows), old(rows)[id], data).error) && rows == old(rows)
      ensures id in old(rows) && ValidarUpdate(old(rows), old(rows)[id], data) == Pass ==>
        var row := Actualizar(old(rows)[id], data);
        var w := ActualizarPorClave(old(rows), id, row, Clave());
        var choca := w.ClaveDuplicada? || NombreDeOtro(old(rows), id, row.nombre_motivo);
        && (choca ==> r == Err(QueryFailed(UNIQUE_VIOLATION)) && rows == old(rows))
        && (!choca ==> rows == w.rows)
        && (!choca && row.id_motivo == id ==> r == Ok(row))
        && (!choca && row.id_motivo != id ==> r == Err(NotFound(NoEncontrada(id))))
      ensures NombresUnicos(old(rows)) ==> NombresUnicos(rows)
    {
      if id !in rows {
        return Err(NotFound(NoEncontrada(id)));
      }
      var v := ValidarUpdate(rows, rows[id], data);
      if v.Fail? {
        return Err(v.error);
      }
      var row := Actualizar(rows[id], data);
      var w := ActualizarPorClave(rows, id, row, Clave());
      if w.ClaveDuplicada? || NombreDeOtro(rows, id, row.nombre_motivo) {
        return Err(QueryFailed(UNIQUE_VIOLATION));
      }
      rows := w.rows;
      if id in rows {
        r := Ok(rows[id]);
      } else {
        r := Err(NotFound(NoEncontrada(id)));
      }
    }

    /** remove: a soft delete that sets estatus to INACTIVO and keeps the row. */
    method Remove(id: int) returns (r: Result<Mensaje>)
      requires Valid()
      modifies this
      ensures Valid() && nextId == old(nextId)
      ensures id !in old(rows) ==> r == Err(NotFound(NoEncontrada(id))) && rows == old(rows)
      ensures id in old(rows) ==>
        && r == Ok(Mensaje(true, "Motivo " + IntToString(id) + " desactivado correctamente"))
        && rows == old(rows)[id := old(rows)[id].(estatus := INACTIVO)]
      ensures rows.Keys == old(rows).Keys
      ensures NombresUnicos(old(rows)) ==> NombresUnicos(rows)
    {
      if id !in rows {
        return Err(NotFound(NoEncontrada(id)));
      }
      rows := rows[id := rows[id].(estatus := INACTIVO)];
      r := Ok(Mensaje(true, "Motivo " + IntToString(id) + " desactivado correctamente"));
    }
  }
}
