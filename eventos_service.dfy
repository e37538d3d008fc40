/** The event table: events are created with a default status, updated
    column by column, deactivated rather than deleted, and listed (active
    ones only) by start date, optionally narrowed by a name fragment. */
module EventosService {
  import opened Common
  import opened Text
  import opened Lists
  import opened Entities
  import opened Tablas

  function NoEncontrado(id: int): string
  {
    "Evento con ID " + IntToString(id) + " no encontrado"
  }

  const OBLIGATORIOS := "Nombre y fecha de inicio son obligatorios"

  /** A `Partial<Evento>` request body, primary key included; a nullable
      column may be sent as `null`. */
  datatype EventoData = EventoData(
    id_evento: Option<int>,
    nombre_evento: Option<string>,
    fecha_inicio: Option<string>,
    fecha_fin: Option<Option<string>>,
    ubicacion: Option<Option<string>>,
    descripcion: Option<Option<string>>,
    estatus: Option<string>)

  predicate CamposRequeridos(d: EventoData)
  {
    TruthyStr(d.nombre_evento) && TruthyStr(d.fecha_inicio)
  }

  /** The row create saves under the key `id`. */
  function NuevoEvento(id: int, d: EventoData): (r: Evento)
    requires CamposRequeridos(d)
    ensures r.id_evento == id
    ensures r.nombre_evento == d.nombre_evento.value && r.fecha_inicio == d.fecha_inicio.value
    ensures !TruthyStr(d.estatus) ==> r.estatus == ACTIVO
    ensures TruthyStr(d.estatus) ==> r.estatus == d.estatus.value
    ensures d.fecha_fin.None? ==> r.fecha_fin.None?
  {
    Evento(id, d.nombre_evento.value, d.fecha_inicio.value, Nullable(d.fecha_fin),
           Nullable(d.ubicacion), Nullable(d.descripcion), OrStr(d.estatus, ACTIVO))
  }

  /** The row update writes: supplied keys overwrite, absent keys keep; the
      primary key is a column like the others. */
  function Actualizar(row: Evento, d: EventoData): (r: Evento)
    ensures r.id_evento == Patch(d.id_evento, row.id_evento)
    ensures r.nombre_evento == Patch(d.nombre_evento, row.nombre_evento)
    ensures r.fecha_inicio == Patch(d.fecha_inicio, row.fecha_inicio)
    ensures r.fecha_fin == Patch(d.fecha_fin, row.fecha_fin)
    ensures r.ubicacion == Patch(d.ubicacion, row.ubicacion)
    ensures r.descripcion == Patch(d.descripcion, row.descripcion)
    ensures r.estatus == Patch(d.estatus, row.estatus)
    ensures d == EventoData(None, None, None, None, None, None, None) ==> r == row
  {
    Evento(Patch(d.id_evento, row.id_evento),
           Patch(d.nombre_evento, row.nombre_evento),
           Patch(d.fecha_inicio, row.fecha_inicio),
           Patch(d.fecha_fin, row.fecha_fin),
           Patch(d.ubicacion, row.ubicacion),
           Patch(d.descripcion, row.descripcion),
           Patch(d.estatus, row.estatus))
  }

  /** The primary key column. */
  function Clave(): Evento -> int
  {
    (e: Evento) => e.id_evento
  }

  /** What create's `save` makes of a stored row whose key the body names:
      the body's columns and the status are written over it, and a nullable
      column the body leaves out keeps its stored value. */
  function Sobrescrito(row: Evento, d: EventoData): (r: Evento)
    ensures r.estatus == OrStr(d.estatus, ACTIVO)
    ensures CamposRequeridos(d) && d.id_evento == Some(row.id_evento) ==>
      r == NuevoEvento(row.id_evento, d).(fecha_fin := Patch(d.fecha_fin, row.fecha_fin),
                                          ubicacion := Patch(d.ubicacion, row.ubicacion),
                                          descripcion := Patch(d.descripcion, row.descripcion))
  {
    Actualizar(row, d.(estatus := Some(OrStr(d.estatus, ACTIVO))))
  }

  function Activo(): Evento -> bool
  {
    (e: Evento) => e.estatus == ACTIVO
  }

  /** The conditions of findByName: active, and the name contains the text. */
  function ActivoConNombre(nombre: string): Evento -> bool
  {
    (e: Evento) => Contains(e.nombre_evento, nombre) && e.estatus == ACTIVO
  }

  /** `ORDER BY fecha_inicio ASC`: `a` may come before `b`. */
  predicate InicioAntes(a: Evento, b: Evento)
  {
    StrLe(a.fecha_inicio, b.fecha_inicio)
  }

  lemma InicioAntesOrden()
    ensures TotalPreorder(InicioAntes)
  {
    forall a: Evento, b: Evento
      ensures InicioAntes(a, b) || InicioAntes(b, a)
    {
      StrLeTotal(a.fecha_inicio, b.fecha_inicio);
    }
    forall a: Evento, b: Evento, c: Evento | InicioAntes(a, b) && InicioAntes(b, c)
      ensures InicioAntes(a, c)
    {
      StrLeTrans(a.fecha_inicio, b.fecha_inicio, c.fecha_inicio);
    }
  }

  function FindActivos(rows: seq<Evento>): seq<Evento>
  {
    SortBy(Filter(rows, Activo()), InicioAntes)
  }

  function FindByName(rows: seq<Evento>, nombre: string): seq<Evento>
  {
    SortBy(Filter(rows, ActivoConNombre(nombre)), InicioAntes)
  }

  /** findActivos returns every active event as often as it is stored, no
      other event, by start date. */
  lemma FindActivosExacto(rows: seq<Evento>)
    ensures forall x :: x in FindActivos(rows) <==> x in rows && x.estatus == ACTIVO
    ensures forall x: Evento :: x.estatus == ACTIVO ==> multiset(FindActivos(rows))[x] == multiset(rows)[x]
    ensures SortedBy(FindActivos(rows), InicioAntes)
  {
    var q := Filter(rows, Activo());
    assert forall x :: x in SortBy(q, InicioAntes) <==> x in multiset(SortBy(q, InicioAntes));
    assert forall x :: x in q <==> x in multiset(q);
    forall x: Evento | x.estatus == ACTIVO
      ensures multiset(FindActivos(rows))[x] == multiset(rows)[x]
    {
      FilterCount(rows, Activo(), x);
    }
    InicioAntesOrden();
    SortBySorted(q, InicioAntes);
  }

  lemma FindByNameMiembros(rows: seq<Evento>, nombre: string)
    ensures forall x :: x in FindByName(rows, nombre) <==> x in rows && ActivoConNombre(nombre)(x)
  {
    var q := Filter(rows, ActivoConNombre(nombre));
    assert forall x :: x in SortBy(q, InicioAntes) <==> x in multiset(SortBy(q, InicioAntes));
    assert forall x :: x in q <==> x in multiset(q);
  }

  /** findByName returns the active events whose name contains `nombre`
      (case-sensitive), each as often as it is stored, by start date. */
  lemma FindByNameExacto(rows: seq<Evento>, nombre: string)
    ensures forall x :: x in FindByName(rows, nombre) <==>
      x in rows && x.estatus == ACTIVO && exists i :: OccursAt(x.nombre_evento, nombre, i)
    ensures forall x: Evento :: x.estatus == ACTIVO && Contains(x.nombre_evento, nombre) ==>
      multiset(FindByName(rows, nombre))[x] == multiset(rows)[x]
    ensures SortedBy(FindByName(rows, nombre), InicioAntes)
  {
    var q := Filter(rows, ActivoConNombre(nombre));
    FindByNameMiembros(rows, nombre);
    forall x: Evento
      ensures x in FindByName(rows, nombre) <==>
        x in rows && x.estatus == ACTIVO && exists i :: OccursAt(x.nombre_evento, nombre, i)
    {
      ContainsIff(x.nombre_evento, nombre);
    }
    forall x: Evento | x.estatus == ACTIVO && Contains(x.nombre_evento, nombre)
      ensures multiset(FindByName(rows, nombre))[x] == multiset(rows)[x]
    {
      FilterCount(rows, ActivoConNombre(nombre), x);
    }
    InicioAntesOrden();
    SortBySorted(q, InicioAntes);
  }

  /** An empty name fragment matches every active event. */
  lemma FindByNameVacio(rows: seq<Evento>)
    ensures FindByName(rows, "") == FindActivos(rows)
  {
    forall e: Evento
      ensures ActivoConNombre("")(e) == Activo()(e)
    {
      ContainsEmpty(e.nombre_evento);
    }
    FilterExt(rows, ActivoConNombre(""), Activo());
  }

  class EventosTable {
    var rows: map<int, Evento>
    /** The next value of the serial primary key. */
    var nextId: int

    /** Every row sits under its own key. A body may name its key, so the
        sequence can lag behind the stored keys. */
    ghost predicate Valid()
      reads this
    {
      1 <= nextId && ClavesPropias(rows, Clave())
    }

    constructor ()
      ensures Valid() && rows == map[] && nextId == 1
    {
      rows := map[];
      nextId := 1;
    }

    /** findActivos over the stored rows: each active event once. */
    method FindActivosM() returns (r: seq<Evento>)
      requires Valid()
      ensures forall x :: x in r <==> x in rows.Values && x.estatus == ACTIVO
      ensures forall x :: x in r ==> multiset(r)[x] == 1
      ensures SortedBy(r, InicioAntes)
    {
      var scan := Values(rows);
      PropiasInyectiva(rows, Clave());
      assert Distinct(scan);
      r := FindActivos(scan);
      FindActivosExacto(scan);
      UnaVez(scan, r);
    }

    /** findByName over the stored rows: each matching event once. */
    method FindByNameM(nombre: string) returns (r: seq<Evento>)
      requires Valid()
      ensures forall x :: x in r <==>
        x in rows.Values && x.estatus == ACTIVO && exists i :: OccursAt(x.nombre_evento, nombre, i)
      ensures forall x :: x in r ==> multiset(r)[x] == 1
      ensures SortedBy(r, InicioAntes)
    {
      var scan := Values(rows);
      PropiasInyectiva(rows, Clave());
      assert Distinct(scan);
      r := FindByName(scan, nombre);
      FindByNameExacto(scan, nombre);
      forall x | x in r
        ensures x in scan && multiset(r)[x] == multiset(scan)[x]
      {
        ContainsIff(x.nombre_evento, nombre);
      }
      UnaVez(scan, r);
    }

    method FindOne(id: int) returns (r: Result<Evento>)
      ensures id in rows ==> r == Ok(rows[id])
      ensures id !in rows ==> r == Err(NotFound(NoEncontrado(id)))
    {
      if id in rows {
        r := Ok(rows[id]);
      } else {
        r := Err(NotFound(NoEncontrado(id)));
      }
    }

    /** create: the check, then `save` of the body. A body naming the key
        of a stored row writes over it. Otherwise the row is inserted under
        the next value of the sequence, whatever key the body names; the
        value is consumed even when that key is taken. */
    method Create(data: EventoData) returns (r: Result<Evento>)
      requires Valid()
      modifies this
      ensures Valid()
      ensures !CamposRequeridos(data) ==>
        r == Err(PlainError(OBLIGATORIOS)) && rows == old(rows) && nextId == old(nextId)
      ensures CamposRequeridos(data) && !ClaveGuardada(old(rows), data.id_evento) ==>
        && nextId == old(nextId) + 1
        && (old(nextId) in old(rows) ==> r == Err(QueryFailed(UNIQUE_VIOLATION)) && rows == old(rows))
        && (old(nextId) !in old(rows) ==>
              r == Ok(NuevoEvento(old(nextId), data)) && rows == old(rows)[old(nextId) := r.value])
      ensures CamposRequeridos(data) && ClaveGuardada(old(rows), data.id_evento) ==>
        var k := data.id_evento.value;
        && nextId == old(nextId)
        && r == Ok(Sobrescrito(old(rows)[k], data))
        && rows == old(rows)[k := r.value]
      ensures r.Ok? ==> r.value.estatus == OrStr(data.estatus, ACTIVO)
    {
      if !CamposRequeridos(data) {
        return Err(PlainError(OBLIGATORIOS));
      }
      if !ClaveGuardada(rows, data.id_evento) {
        var row := NuevoEvento(nextId, data);
        var w := Insertar(rows, row, Clave());
        nextId := nextId + 1;
        if w.ClaveDuplicada? {
          return Err(QueryFailed(UNIQUE_VIOLATION));
        }
        rows := w.rows;
        r := Ok(row);
      } else {
        var k := data.id_evento.value;
        var row := Sobrescrito(rows[k], data);
        rows := rows[k := row];
        r := Ok(row);
      }
    }

    /** update: the `UPDATE` of the body's columns, the key among them, then
        the row read back under `id`, without the not-found check, so a moved
        key yields no event at all. */
    method Update(id: int, data: EventoData) returns (r: Result<Option<Evento>>)
      requires Valid()
      modifies this
      ensures Valid() && nextId == old(nextId)
      ensures id !in old(rows) ==> r == Err(NotFound(NoEncontrado(id))) && rows == old(rows)
      ensures id in old(rows) ==>
        var row := Actualizar(old(rows)[id], data);
        var w := ActualizarPorClave(old(rows), id, row, Clave());
        && (w.ClaveDuplicada? ==> r == Err(QueryFailed(UNIQUE_VIOLATION)) && rows == old(rows))
        && (w.Escrita? ==> rows == w.rows)
        && (w.Escrita? && row.id_evento == id ==> r == Ok(Some(row)))
        && (w.Escrita? && row.id_evento != id ==> r == Ok(None))
    {
      if id !in rows {
        return Err(NotFound(NoEncontrado(id)));
      }
      var row := Actualizar(rows[id], data);
      var w := ActualizarPorClave(rows, id, row, Clave());
      if w.ClaveDuplicada? {
        return Err(QueryFailed(UNIQUE_VIOLATION));
      }
      rows := w.rows;
      if id in rows {
        r := Ok(Some(rows[id]));
      } else {
        r := Ok(None);
      }
    }

    /** remove: a soft delete that sets estatus to INACTIVO and keeps the row. */
    method Remove(id: int) returns (r: Result<Mensaje>)
      requires Valid()
      modifies this
      ensures Valid() && nextId == old(nextId)
      ensures rows.Keys == old(rows).Keys
      ensures id !in old(rows) ==> r == Err(NotFound(NoEncontrado(id))) && rows == old(rows)
      ensures id in old(rows) ==>
        && r == Ok(Mensaje(true, "Evento " + IntToString(id) + " eliminado correctamente"))
        && rows == old(rows)[id := old(rows)[id].(estatus := INACTIVO)]
    {
      if id !in rows {
        return Err(NotFound(NoEncontrado(id)));
      }
      rows := rows[id := rows[id].(estatus := INACTIVO)];
      r := Ok(Mensaje(true, "Evento " + IntToString(id) + " eliminado correctamente"));
    }
  }
}
