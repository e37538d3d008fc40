/** The corporation catalogue: a table of corporations with unique names,
    listed by name, created with a default status, renamed only to a free
    name, deleted for good unless an incident refers to them, and toggled
    between ACTIVO and INACTIVO. */
module CorporacionesService {
  import opened Common
  import opened Text
  import opened Lists
  import opened Entities
  import opened Tablas

  function NoEncontrada(id: int): string
  {
    "Corporacion con ID " + IntToString(id) + " no encontrada"
  }

  function YaExiste(nombre: string): string
  {
    "Ya existe una corporacion con el nombre \"" + nombre + "\""
  }

  const NOMBRE_OBLIGATORIO := "El nombre de la corporacion es obligatorio"
  const RELACIONADA :=
    "No es posible eliminar la corporacion porque esta relacionada con incidencias registradas."

  /** A `Partial<Corporacion>` request body, primary key included. */
  datatype CorporacionData = CorporacionData(
    id_corporacion: Option<int>,
    nombre_corporacion: Option<string>,
    estatus: Option<string>)

  function Activa(): Corporacion -> bool
  {
    (c: Corporacion) => c.estatus == ACTIVO
  }

  /** `ORDER BY nombre_corporacion ASC`: `a` may come before `b`. */
  predicate NombreAntes(a: Corporacion, b: Corporacion)
  {
    StrLe(a.nombre_corporacion, b.nombre_corporacion)
  }

  lemma NombreAntesOrden()
    ensures TotalPreorder(NombreAntes)
  {
    forall a: Corporacion, b: Corporacion
      ensures NombreAntes(a, b) || NombreAntes(b, a)
    {
      StrLeTotal(a.nombre_corporacion, b.nombre_corporacion);
    }
    forall a: Corporacion, b: Corporacion, c: Corporacion | NombreAntes(a, b) && NombreAntes(b, c)
      ensures NombreAntes(a, c)
    {
      StrLeTrans(a.nombre_corporacion, b.nombre_corporacion, c.nombre_corporacion);
    }
  }

  /** findActivas: the active corporations by name. */
  function FindActivas(rows: seq<Corporacion>): seq<Corporacion>
  {
    SortBy(Filter(rows, Activa()), NombreAntes)
  }

  /** findActivas returns every active row as often as it is stored, no
      other row, in name order. */
  lemma FindActivasExacto(rows: seq<Corporacion>)
    ensures forall x :: x in FindActivas(rows) <==> x in rows && x.estatus == ACTIVO
    ensures forall x: Corporacion :: x.estatus == ACTIVO ==> multiset(FindActivas(rows))[x] == multiset(rows)[x]
    ensures SortedBy(FindActivas(rows), NombreAntes)
  {
    var q := Filter(rows, Activa());
    assert forall x :: x in SortBy(q, NombreAntes) <==> x in multiset(SortBy(q, NombreAntes));
    assert forall x :: x in q <==> x in multiset(q);
    forall x: Corporacion | x.estatus == ACTIVO
      ensures multiset(FindActivas(rows))[x] == multiset(rows)[x]
    {
      FilterCount(rows, Activa(), x);
    }
    NombreAntesOrden();
    SortBySorted(q, NombreAntes);
  }

  /** Some stored corporation has the name `nombre`. */
  predicate NombreTomado(rows: map<int, Corporacion>, nombre: string)
  {
    exists k :: k in rows && rows[k].nombre_corporacion == nombre
  }

  /** A stored corporation other than `id` has the name `nombre`: the unique
      column refuses to give the row `id` that name. */
  predicate NombreDeOtra(rows: map<int, Corporacion>, id: int, nombre: string)
  {
    exists k :: k in rows && k != id && rows[k].nombre_corporacion == nombre
  }

  /** No two rows share a name (the column is `unique`). */
  ghost predicate NombresUnicos(rows: map<int, Corporacion>)
  {
    forall a, b :: a in rows && b in rows && rows[a].nombre_corporacion == rows[b].nombre_corporacion ==> a == b
  }

  /** Some incident refers to the corporation `id` through its foreign key. */
  predicate Referenciada(incidencias: map<int, Incidencia>, id: int)
  {
    exists k :: k in incidencias && incidencias[k].id_corporacion == id
  }

  /** The decision of create about a body, given the stored rows. */
  function ValidarCreate(rows: map<int, Corporacion>, data: CorporacionData): (o: Outcome)
    ensures o == Pass <==> TruthyStr(data.nombre_corporacion) && !NombreTomado(rows, data.nombre_corporacion.value)
    ensures !TruthyStr(data.nombre_corporacion) ==> o == Fail(PlainError(NOMBRE_OBLIGATORIO))
    ensures TruthyStr(data.nombre_corporacion) && NombreTomado(rows, data.nombre_corporacion.value) ==>
              o == Fail(Conflict(YaExiste(data.nombre_corporacion.value)))
  {
    if !TruthyStr(data.nombre_corporacion) then Fail(PlainError(NOMBRE_OBLIGATORIO))
    else if NombreTomado(rows, data.nombre_corporacion.value) then
      Fail(Conflict(YaExiste(data.nombre_corporacion.value)))
    else Pass
  }

  /** The decision of update about a body for the existing row `actual`: the
      name is checked only when a truthy one is supplied that differs from
      the current one. */
  function ValidarUpdate(rows: map<int, Corporacion>, actual: Corporacion, data: CorporacionData): (o: Outcome)
    ensures o == Pass <==>
      !(TruthyStr(data.nombre_corporacion) && data.nombre_corporacion.value != actual.nombre_corporacion
        && NombreTomado(rows, data.nombre_corporacion.value))
    ensures o != Pass ==> o == Fail(Conflict(YaExiste(data.nombre_corporacion.value)))
    ensures data.nombre_corporacion == Some(actual.nombre_corporacion) ==> o == Pass
  {
    if TruthyStr(data.nombre_corporacion) && data.nombre_corporacion.value != actual.nombre_corporacion
       && NombreTomado(rows, data.nombre_corporacion.value)
    then Fail(Conflict(YaExiste(data.nombre_corporacion.value)))
    else Pass
  }

  /** The row update writes: supplied keys overwrite, absent keys keep; the
      primary key is a column like the others. */
  function Actualizar(row: Corporacion, data: CorporacionData): (r: Corporacion)
    ensures r.id_corporacion == Patch(data.id_corporacion, row.id_corporacion)
    ensures r.nombre_corporacion == Patch(data.nombre_corporacion, row.nombre_corporacion)
    ensures r.estatus == Patch(data.estatus, row.estatus)
  {
    Corporacion(Patch(data.id_corporacion, row.id_corporacion),
                Patch(data.nombre_corporacion, row.nombre_corporacion),
                Patch(data.estatus, row.estatus))
  }

  /** The primary key column. */
  function Clave(): Corporacion -> int
  {
    (c: Corporacion) => c.id_corporacion
  }

  /** The row create saves under the key `id`, with ACTIVO unless a truthy
      status is supplied. */
  function NuevaCorporacion(id: int, data: CorporacionData): (r: Corporacion)
    requires TruthyStr(data.nombre_corporacion)
    ensures r.id_corporacion == id && r.nombre_corporacion == data.nombre_corporacion.value
    ensures r.estatus == (if TruthyStr(data.estatus) then data.estatus.value else ACTIVO)
  {
    Corporacion(id, data.nombre_corporacion.value, OrStr(data.estatus, ACTIVO))
  }

  /** When the body names the key of a stored row, create's `save` writes
      every column over it, so the stored row ends up as the fresh one. */
  lemma SobrescribirEsNueva(row: Corporacion, data: CorporacionData)
    requires TruthyStr(data.nombre_corporacion) && data.id_corporacion == Some(row.id_corporacion)
    ensures Actualizar(row, data.(estatus := Some(OrStr(data.estatus, ACTIVO))))
            == NuevaCorporacion(row.id_corporacion, data)
  {
  }

  class CorporacionesTable {
    var rows: map<int, Corporacion>
    /** The next value of the serial primary key. */
    var nextId: int

    /** Every row sits under its own key. A body may name its key, so the
        sequence can lag behind the stored keys. */
    ghost predicate Valid()
      reads this
    {
      1 <= nextId && ClavesPropias(rows, Clave())
    }

    constructor ()
      ensures Valid() && rows == map[] && nextId == 1
    {
      rows := map[];
      nextId := 1;
    }

    /** findActivas over the stored rows: each active row once. */
    method FindActivasM() returns (r: seq<Corporacion>)
      requires Valid()
      ensures forall x :: x in r <==> x in rows.Values && x.estatus == ACTIVO
      ensures forall x :: x in r ==> multiset(r)[x] == 1
      ensures SortedBy(r, NombreAntes)
    {
      var scan := Values(rows);
      PropiasInyectiva(rows, Clave());
      assert Distinct(scan);
      r := FindActivas(scan);
      FindActivasExacto(scan);
      UnaVez(scan, r);
    }

    method FindOne(id: int) returns (r: Result<Corporacion>)
      ensures id in rows ==> r == Ok(rows[id])
      ensures id !in rows ==> r == Err(NotFound(NoEncontrada(id)))
    {
      if id in rows {
        r := Ok(rows[id]);
      } else {
        r := Err(NotFound(NoEncontrada(id)));
      }
    }

    /** create: the checks, then `save` of the body. A body naming the key
        of a stored row writes over it. Otherwise the row is inserted under
        the next value of the sequence, whatever key the body names; the
        value is consumed even when that key is taken. */
    method Create(data: CorporacionData) returns (r: Result<Corporacion>)
      requires Valid()
      modifies this
      ensures Valid()
      ensures ValidarCreate(old(rows), data).Fail? ==>
        r == Err(ValidarCreate(old(rows), data).error) && rows == old(rows) && nextId == old(nextId)
      ensures ValidarCreate(old(rows), data) == Pass && !ClaveGuardada(old(rows), data.id_corporacion) ==>
        && nextId == old(nextId) + 1
        && (old(nextId) in old(rows) ==> r == Err(QueryFailed(UNIQUE_VIOLATION)) && rows == old(rows))
        && (old(nextId) !in old(rows) ==>
              r == Ok(NuevaCorporacion(old(nextId), data)) && rows == old(rows)[old(nextId) := r.value])
      ensures ValidarCreate(old(rows), data) == Pass && ClaveGuardada(old(rows), data.id_corporacion) ==>
        var k := data.id_corporacion.value;
        && nextId == old(nextId)
        && r == Ok(NuevaCorporacion(k, data))
        && rows == old(rows)[k := r.value]
      ensures NombresUnicos(old(rows)) ==> NombresUnicos(rows)
    {
      var v := ValidarCreate(rows, data);
      if v.Fail? {
        return Err(v.error);
      }
      if !ClaveGuardada(rows, data.id_corporacion) {
        var row := NuevaCorporacion(nextId, data);
        var w := Insertar(rows, row, Clave());
        nextId := nextId + 1;
        if w.ClaveDuplicada? {
          return Err(QueryFailed(UNIQUE_VIOLATION));
        }
        rows := w.rows;
        r := Ok(row);
      } else {
        var k := data.id_corporacion.value;
        var row := Actualizar(rows[k], data.(estatus := Some(OrStr(data.estatus, ACTIVO))));
        SobrescribirEsNueva(rows[k], data);
        rows := rows[k := row];
        r := Ok(row);
      }
    }

    /** update: the name check, then the `UPDATE` of the body's columns, the
        key among them, which the database refuses with 23505 when the new
        key or the new name is another row's; then the row is read back
        under `id`, which fails once the key has moved. */
    method Update(id: int, data: CorporacionData) returns (r: Result<Corporacion>)
      requires Valid()
      modifies this
      ensures Valid() && nextId == old(nextId)
      ensures id !in old(rows) ==> r == Err(NotFound(NoEncontrada(id))) && rows == old(rows)
      ensures id in old(rows) && ValidarUpdate(old(rows), old(rows)[id], data).Fail? ==>
        r == Err(ValidarUpdate(old(rows), old(rows)[id], data).error) && rows == old(rows)
      ensures id in old(rows) && ValidarUpdate(old(rows), old(rows)[id], data) == Pass ==>
        var row := Actualizar(old(rows)[id], data);
        var w := ActualizarPorClave(old(rows), id, row, Clave());
        var choca := w.ClaveDuplicada? || NombreDeOtra(old(rows), id, row.nombre_corporacion);
        && (choca ==> r == Err(QueryFailed(UNIQUE_VIOLATION)) && rows == old(rows))
        && (!choca ==> rows == w.rows)
        && (!choca && row.id_corporacion == id ==> r == Ok(row))
        && (!choca && row.id_corporacion != id ==> r == Err(NotFound(NoEncontrada(id))))
      ensures NombresUnicos(old(rows)) ==> NombresUnicos(rows)
    {
      if id !in rows {
        return Err(NotFound(NoEncontrada(id)));
      }
      var v := ValidarUpdate(rows, rows[id], data);
      if v.Fail? {
        return Err(v.error);
      }
      var row := Actualizar(rows[id], data);
      var w := ActualizarPorClave(rows, id, row, Clave());
      if w.ClaveDuplicada? || NombreDeOtra(rows, id, row.nombre_corporacion) {
        return Err(QueryFailed(UNIQUE_VIOLATION));
      }
      rows := w.rows;
      if id in rows {
        r := Ok(rows[id]);
      } else {
        r := Err(NotFound(NoEncontrada(id)));
      }
    }

    /** remove: a hard delete, refused while an incident refers to the row. */
    method Remove(id: int, incidencias: map<int, Incidencia>) returns (r: Result<Mensaje>)
      requires Valid()
      modifies this
      ensures Valid() && nextId == old(nextId)
      ensures id !in old(rows) ==> r == Err(NotFound(NoEncontrada(id))) && rows == old(rows)
      ensures id in old(rows) && Referenciada(incidencias, id) ==>
        r == Err(Conflict(RELACIONADA)) && rows == old(rows)
      ensures id in old(rows) && !Referenciada(incidencias, id) ==>
        && r == Ok(Mensaje(true, "Corporacion " + IntToString(id) + " eliminada correctamente"))
        && rows == old(rows) - {id}
    {
      if id !in rows {
        return Err(NotFound(NoEncontrada(id)));
      }
      if Referenciada(incidencias, id) {
        return Err(Conflict(RELACIONADA));
      }
      rows := rows - {id};
      r := Ok(Mensaje(true, "Corporacion " + IntToString(id) + " eliminada correctamente"));
    }

    method Toggle(id: int) returns (r: Result<Corporacion>)
      requires Valid()
      modifies this
      ensures Valid() && nextId == old(nextId)
      ensures id !in old(rows) ==> r == Err(NotFound(NoEncontrada(id))) && rows == old(rows)
      ensures id in old(rows) ==>
        && r == Ok(old(rows)[id].(estatus := Alternado(old(rows)[id].estatus)))
        && rows == old(rows)[id := r.value]
    {
      if id !in rows {
        return Err(NotFound(NoEncontrada(id)));
      }
      var row := rows[id].(estatus := Alternado(rows[id].estatus));
      rows := rows[id := row];
      r := Ok(row);
    }
  }
}
