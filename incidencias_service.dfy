/** The incident service: the incident table with its create, update, close
    and delete operations, the by-event listing, the filter query and the
    evidence statistics. */
module IncidenciasService {
  import opened Common
  import opened Text
  import opened Lists
  import opened Entities
  import opened Tablas

  function NoEncontrada(id: int): string
  {
    "Incidencia con ID " + IntToString(id) + " no encontrada"
  }

  const FALTAN_CAMPOS := "Faltan campos obligatorios"

  /** The relation keys a `Partial<Incidencia>` body may carry besides its columns. */
  datatype Relacion =
    | RelEvidencias | RelEvento | RelCorporacion | RelMotivo | RelUsuarioCrea | RelUsuarioCierra

  /** A `Partial<Incidencia>` request body, primary key included. A nullable
      column may be supplied as `null`, which is `Some(None)`. */
  datatype IncidenciaData = IncidenciaData(
    id_incidencia: Option<int>,
    id_evento: Option<int>,
    fecha: Option<string>,
    hora: Option<string>,
    id_corporacion: Option<int>,
    id_motivo: Option<int>,
    ubicacion: Option<string>,
    descripcion: Option<string>,
    usuario_crea: Option<int>,
    usuario_cierra: Option<Option<int>>,
    fecha_cierre: Option<Option<int>>,
    estatus: Option<string>,
    relaciones: set<Relacion>)

  /** The scalar columns of a body, once the relation keys are taken out. */
  datatype Campos = Campos(
    id_incidencia: Option<int>,
    id_evento: Option<int>,
    fecha: Option<string>,
    hora: Option<string>,
    id_corporacion: Option<int>,
    id_motivo: Option<int>,
    ubicacion: Option<string>,
    descripcion: Option<string>,
    usuario_crea: Option<int>,
    usuario_cierra: Option<Option<int>>,
    fecha_cierre: Option<Option<int>>,
    estatus: Option<string>)

  /** The destructuring in update that drops evidencias, evento, corporacion,
      motivo, usuarioCrea and usuarioCierra. */
  function SoloCampos(d: IncidenciaData): Campos
  {
    Campos(d.id_incidencia, d.id_evento, d.fecha, d.hora, d.id_corporacion, d.id_motivo, d.ubicacion,
           d.descripcion, d.usuario_crea, d.usuario_cierra, d.fecha_cierre, d.estatus)
  }

  /** Every column create insists on is present and truthy. */
  predicate CamposRequeridos(d: IncidenciaData)
  {
    && TruthyInt(d.id_evento)
    && TruthyStr(d.fecha)
    && TruthyStr(d.hora)
    && TruthyInt(d.id_corporacion)
    && TruthyInt(d.id_motivo)
    && TruthyStr(d.ubicacion)
    && TruthyStr(d.descripcion)
    && TruthyInt(d.usuario_crea)
  }

  /** The primary key column. */
  function Clave(): Incidencia -> int
  {
    (i: Incidencia) => i.id_incidencia
  }

  /** The row create inserts under the key `id`. */
  function NuevaIncidencia(id: int, d: IncidenciaData): (r: Incidencia)
    requires CamposRequeridos(d)
    ensures r.id_incidencia == id
    ensures r.usuario_crea == d.usuario_crea.value && r.id_evento == d.id_evento.value
    ensures !TruthyStr(d.estatus) ==> r.estatus == ESTATUS_ABIERTA
    ensures TruthyStr(d.estatus) ==> r.estatus == d.estatus.value
  {
    Incidencia(id, d.id_evento.value, d.fecha.value, d.hora.value, d.id_corporacion.value,
               d.id_motivo.value, d.ubicacion.value, d.descripcion.value, d.usuario_crea.value,
               Nullable(d.usuario_cierra), Nullable(d.fecha_cierre),
               OrStr(d.estatus, ESTATUS_ABIERTA))
  }

  /** A row after an update that writes the supplied columns `c`, the key
      column among them. */
  function Actualizar(row: Incidencia, c: Campos): (r: Incidencia)
    ensures r.id_incidencia == Patch(c.id_incidencia, row.id_incidencia)
    ensures r.id_evento == Patch(c.id_evento, row.id_evento)
    ensures r.fecha == Patch(c.fecha, row.fecha)
    ensures r.hora == Patch(c.hora, row.hora)
    ensures r.id_corporacion == Patch(c.id_corporacion, row.id_corporacion)
    ensures r.id_motivo == Patch(c.id_motivo, row.id_motivo)
    ensures r.ubicacion == Patch(c.ubicacion, row.ubicacion)
    ensures r.descripcion == Patch(c.descripcion, row.descripcion)
    ensures r.usuario_crea == Patch(c.usuario_crea, row.usuario_crea)
    ensures r.usuario_cierra == Patch(c.usuario_cierra, row.usuario_cierra)
    ensures r.fecha_cierre == Patch(c.fecha_cierre, row.fecha_cierre)
    ensures r.estatus == Patch(c.estatus, row.estatus)
    ensures c == Campos(None, None, None, None, None, None, None, None, None, None, None, None) ==> r == row
  {
    Incidencia(
      Patch(c.id_incidencia, row.id_incidencia),
      Patch(c.id_evento, row.id_evento),
      Patch(c.fecha, row.fecha),
      Patch(c.hora, row.hora),
      Patch(c.id_corporacion, row.id_corporacion),
      Patch(c.id_motivo, row.id_motivo),
      Patch(c.ubicacion, row.ubicacion),
      Patch(c.descripcion, row.descripcion),
      Patch(c.usuario_crea, row.usuario_crea),
      Patch(c.usuario_cierra, row.usuario_cierra),
      Patch(c.fecha_cierre, row.fecha_cierre),
      Patch(c.estatus, row.estatus))
  }

  /** The row create's `save` leaves when the body names the key of the
      stored row `row`: every supplied column and the status, which create
      always sets, overwrite it. With every required column supplied, that
      is the fresh row, except that the close columns keep their stored
      values unless the body supplies them. */
  function Sobrescrita(row: Incidencia, d: IncidenciaData): (r: Incidencia)
    ensures r.estatus == OrStr(d.estatus, ESTATUS_ABIERTA)
    ensures CamposRequeridos(d) && d.id_incidencia == Some(row.id_incidencia) ==>
      r == NuevaIncidencia(row.id_incidencia, d).(
             usuario_cierra := Patch(d.usuario_cierra, row.usuario_cierra),
             fecha_cierre := Patch(d.fecha_cierre, row.fecha_cierre))
  {
    Actualizar(row, SoloCampos(d).(estatus := Some(OrStr(d.estatus, ESTATUS_ABIERTA))))
  }

  /** A row after cerrar by `usuario` at time `ahora`. */
  function Cerrada(row: Incidencia, usuario: int, ahora: int): (r: Incidencia)
    ensures r.estatus == ESTATUS_CERRADA
    ensures r.usuario_cierra == Some(usuario) && r.fecha_cierre == Some(ahora)
    ensures r.(estatus := row.estatus, usuario_cierra := row.usuario_cierra,
               fecha_cierre := row.fecha_cierre) == row
  {
    row.(estatus := ESTATUS_CERRADA, usuario_cierra := Some(usuario), fecha_cierre := Some(ahora))
  }

  /** Closing twice is closing once, by the second caller at the second time;
      the prior status plays no part. */
  lemma CerrarDosVeces(row: Incidencia, u1: int, t1: int, u2: int, t2: int)
    ensures Cerrada(Cerrada(row, u1, t1), u2, t2) == Cerrada(row, u2, t2)
    ensures Cerrada(row.(estatus := ESTATUS_ABIERTA), u2, t2) == Cerrada(row, u2, t2)
  {
  }

  // ---------------------------------------------------------------------
  // Queries over the rows of the table

  /** `ORDER BY fecha DESC, hora DESC`: `a` may come before `b`. */
  predicate MasReciente(a: Incidencia, b: Incidencia)
  {
    if a.fecha == b.fecha then StrLe(b.hora, a.hora) else StrLe(b.fecha, a.fecha)
  }

  lemma MasRecienteOrden()
    ensures TotalPreorder(MasReciente)
  {
    forall a: Incidencia, b: Incidencia
      ensures MasReciente(a, b) || MasReciente(b, a)
    {
      StrLeTotal(a.hora, b.hora);
      StrLeTotal(a.fecha, b.fecha);
    }
    forall a: Incidencia, b: Incidencia, c: Incidencia | MasReciente(a, b) && MasReciente(b, c)
      ensures MasReciente(a, c)
    {
      if a.fecha == b.fecha && b.fecha == c.fecha {
        StrLeTrans(c.hora, b.hora, a.hora);
      } else if a.fecha == b.fecha {
        assert StrLe(c.fecha, a.fecha);
        if a.fecha == c.fecha {
          StrLeAntisym(b.fecha, c.fecha);
        }
      } else if b.fecha == c.fecha {
        assert StrLe(c.fecha, a.fecha);
        if a.fecha == c.fecha {
          StrLeAntisym(a.fecha, b.fecha);
        }
      } else {
        StrLeTrans(c.fecha, b.fecha, a.fecha);
        if a.fecha == c.fecha {
          StrLeAntisym(a.fecha, b.fecha);
        }
      }
    }
  }

  function DelEvento(idEvento: int): Incidencia -> bool
  {
    (i: Incidencia) => i.id_evento == idEvento
  }

  /** findByEvento: the incidents of one event, most recent first. */
  function FindByEvento(rows: seq<Incidencia>, idEvento: int): seq<Incidencia>
  {
    SortBy(Filter(rows, DelEvento(idEvento)), MasReciente)
  }

  /** The query-string filters of `filtrar`. A numeric filter is `None` when
      its text is absent or empty; a text filter is given as sent. */
  datatype Filtros = Filtros(
    id_incidencia: Option<int>,
    descripcion: Option<string>,
    fecha: Option<string>,
    id_corporacion: Option<int>,
    id_motivo: Option<int>,
    estatus: Option<string>)

  const SIN_FILTROS := Filtros(None, None, None, None, None, None)

  /** Reference definition of the filters: the conjunction of every supplied
      one; `descripcion` matches as a case-insensitive substring (ILIKE '%x%'). */
  predicate CumpleFiltros(f: Filtros, i: Incidencia)
  {
    && (f.id_incidencia.Some? ==> i.id_incidencia == f.id_incidencia.value)
    && (TruthyStr(f.descripcion) ==> Contains(Lower(i.descripcion), Lower(f.descripcion.value)))
    && (TruthyStr(f.fecha) ==> i.fecha == f.fecha.value)
    && (f.id_corporacion.Some? ==> i.id_corporacion == f.id_corporacion.value)
    && (f.id_motivo.Some? ==> i.id_motivo == f.id_motivo.value)
    && (TruthyStr(f.estatus) ==> i.estatus == f.estatus.value)
  }

  function PorId(o: Option<int>): Incidencia -> bool
  {
    (i: Incidencia) => o.Some? ==> i.id_incidencia == o.value
  }
  function PorDescripcion(o: Option<string>): Incidencia -> bool
  {
    (i: Incidencia) => o.Some? ==> Contains(Lower(i.descripcion), Lower(o.value))
  }
  function PorFecha(o: Option<string>): Incidencia -> bool
  {
    (i: Incidencia) => o.Some? ==> i.fecha == o.value
  }
  function PorCorporacion(o: Option<int>): Incidencia -> bool
  {
    (i: Incidencia) => o.Some? ==> i.id_corporacion == o.value
  }
  function PorMotivo(o: Option<int>): Incidencia -> bool
  {
    (i: Incidencia) => o.Some? ==> i.id_motivo == o.value
  }
  function PorEstatus(o: Option<string>): Incidencia -> bool
  {
    (i: Incidencia) => o.Some? ==> i.estatus == o.value
  }

  /** The `where` and the successive `andWhere` calls of filtrar: start from
      the event's rows and narrow once per supplied filter. Each stage is a
      function of its own. */
  function ConId(rows: seq<Incidencia>, idEvento: int, f: Filtros): seq<Incidencia>
  {
    FilterIf(f.id_incidencia.Some?, Filter(rows, DelEvento(idEvento)), PorId(f.id_incidencia))
  }
  function ConDescripcion(rows: seq<Incidencia>, idEvento: int, f: Filtros): seq<Incidencia>
  {
    FilterIf(TruthyStr(f.descripcion), ConId(rows, idEvento, f), PorDescripcion(f.descripcion))
  }
  function ConFecha(rows: seq<Incidencia>, idEvento: int, f: Filtros): seq<Incidencia>
  {
    FilterIf(TruthyStr(f.fecha), ConDescripcion(rows, idEvento, f), PorFecha(f.fecha))
  }
  function ConCorporacion(rows: seq<Incidencia>, idEvento: int, f: Filtros): seq<Incidencia>
  {
    FilterIf(f.id_corporacion.Some?, ConFecha(rows, idEvento, f), PorCorporacion(f.id_corporacion))
  }
  function ConMotivo(rows: seq<Incidencia>, idEvento: int, f: Filtros): seq<Incidencia>
  {
    FilterIf(f.id_motivo.Some?, ConCorporacion(rows, idEvento, f), PorMotivo(f.id_motivo))
  }
  function Condiciones(rows: seq<Incidencia>, idEvento: int, f: Filtros): seq<Incidencia>
  {
    FilterIf(TruthyStr(f.estatus), ConMotivo(rows, idEvento, f), PorEstatus(f.estatus))
  }

  /** The conditions up to the id filter, up to the description filter, and
      so on; the last one is all of them. */
  function HastaId(idEvento: int, f: Filtros): Incidencia -> bool
  {
    (i: Incidencia) => DelEvento(idEvento)(i) && (f.id_incidencia.Some? ==> PorId(f.id_incidencia)(i))
  }
  function HastaDescripcion(idEvento: int, f: Filtros): Incidencia -> bool
  {
    (i: Incidencia) => HastaId(idEvento, f)(i) && (TruthyStr(f.descripcion) ==> PorDescripcion(f.descripcion)(i))
  }
  function HastaFecha(idEvento: int, f: Filtros): Incidencia -> bool
  {
    (i: Incidencia) => HastaDescripcion(idEvento, f)(i) && (TruthyStr(f.fecha) ==> PorFecha(f.fecha)(i))
  }
  function HastaCorporacion(idEvento: int, f: Filtros): Incidencia -> bool
  {
    (i: Incidencia) => HastaFecha(idEvento, f)(i) && (f.id_corporacion.Some? ==> PorCorporacion(f.id_corporacion)(i))
  }
  function HastaMotivo(idEvento: int, f: Filtros): Incidencia -> bool
  {
    (i: Incidencia) => HastaCorporacion(idEvento, f)(i) && (f.id_motivo.Some? ==> PorMotivo(f.id_motivo)(i))
  }
  function Todas(idEvento: int, f: Filtros): Incidencia -> bool
  {
    (i: Incidencia) => i.id_evento == idEvento && CumpleFiltros(f, i)
  }

  lemma ConIdUnFiltro(rows: seq<Incidencia>, idEvento: int, f: Filtros)
    ensures ConId(rows, idEvento, f) == Filter(rows, HastaId(idEvento, f))
  {
    FilterIfAfter(f.id_incidencia.Some?, rows, DelEvento(idEvento), PorId(f.id_incidencia), HastaId(idEvento, f));
  }

  lemma ConDescripcionUnFiltro(rows: seq<Incidencia>, idEvento: int, f: Filtros)
    ensures ConDescripcion(rows, idEvento, f) == Filter(rows, HastaDescripcion(idEvento, f))
  {
    ConIdUnFiltro(rows, idEvento, f);
    FilterIfAfter(TruthyStr(f.descripcion), rows, HastaId(idEvento, f), PorDescripcion(f.descripcion), HastaDescripcion(idEvento, f));
  }

  lemma ConFechaUnFiltro(rows: seq<Incidencia>, idEvento: int, f: Filtros)
    ensures ConFecha(rows, idEvento, f) == Filter(rows, HastaFecha(idEvento, f))
  {
    ConDescripcionUnFiltro(rows, idEvento, f);
    FilterIfAfter(TruthyStr(f.fecha), rows, HastaDescripcion(idEvento, f), PorFecha(f.fecha), HastaFecha(idEvento, f));
  }

  lemma ConCorporacionUnFiltro(rows: seq<Incidencia>, idEvento: int, f: Filtros)
    ensures ConCorporacion(rows, idEvento, f) == Filter(rows, HastaCorporacion(idEvento, f))
  {
    ConFechaUnFiltro(rows, idEvento, f);
    FilterIfAfter(f.id_corporacion.Some?, rows, HastaFecha(idEvento, f), PorCorporacion(f.id_corporacion), HastaCorporacion(idEvento, f));
  }

  lemma ConMotivoUnFiltro(rows: seq<Incidencia>, idEvento: int, f: Filtros)
    ensures ConMotivo(rows, idEvento, f) == Filter(rows, HastaMotivo(idEvento, f))
  {
    ConCorporacionUnFiltro(rows, idEvento, f);
    FilterIfAfter(f.id_motivo.Some?, rows, HastaCorporacion(idEvento, f), PorMotivo(f.id_motivo), HastaMotivo(idEvento, f));
  }

  /** The successive conditions act as one filter by all of them together. */
  lemma CondicionesUnFiltro(rows: seq<Incidencia>, idEvento: int, f: Filtros)
    ensures Condiciones(rows, idEvento, f) == Filter(rows, Todas(idEvento, f))
  {
    ConMotivoUnFiltro(rows, idEvento, f);
    FilterIfAfter(TruthyStr(f.estatus), rows, HastaMotivo(idEvento, f), PorEstatus(f.estatus), Todas(idEvento, f));
  }

  /** filtrar: the conditions, then `ORDER BY fecha DESC, hora DESC`. */
  function Filtrar(rows: seq<Incidencia>, idEvento: int, f: Filtros): seq<Incidencia>
  {
    SortBy(Condiciones(rows, idEvento, f), MasReciente)
  }

  /** filtrar returns exactly the rows of the event that meet every supplied
      filter, each as often as it is stored, ordered most recent first. */
  lemma FiltrarExacto(rows: seq<Incidencia>, idEvento: int, f: Filtros)
    ensures forall x :: x in Filtrar(rows, idEvento, f) <==>
                          x in rows && x.id_evento == idEvento && CumpleFiltros(f, x)
    ensures forall x: Incidencia :: x.id_evento == idEvento && CumpleFiltros(f, x) ==>
                          multiset(Filtrar(rows, idEvento, f))[x] == multiset(rows)[x]
    ensures SortedBy(Filtrar(rows, idEvento, f), MasReciente)
  {
    var q := Condiciones(rows, idEvento, f);
    CondicionesUnFiltro(rows, idEvento, f);
    assert forall x :: x in SortBy(q, MasReciente) <==> x in multiset(SortBy(q, MasReciente));
    assert forall x :: x in q <==> x in multiset(q);
    forall x: Incidencia | x.id_evento == idEvento && CumpleFiltros(f, x)
      ensures multiset(Filtrar(rows, idEvento, f))[x] == multiset(rows)[x]
    {
      FilterCount(rows, Todas(idEvento, f), x);
    }
    MasRecienteOrden();
    SortBySorted(Condiciones(rows, idEvento, f), MasReciente);
  }

  /** With no filter supplied, filtrar is findByEvento. */
  lemma FiltrarSinFiltros(rows: seq<Incidencia>, idEvento: int)
    ensures Filtrar(rows, idEvento, SIN_FILTROS) == FindByEvento(rows, idEvento)
  {
  }

  /** findByEvento returns exactly the event's rows, most recent first. */
  lemma FindByEventoExacto(rows: seq<Incidencia>, idEvento: int)
    ensures forall x :: x in FindByEvento(rows, idEvento) <==> x in rows && x.id_evento == idEvento
    ensures multiset(FindByEvento(rows, idEvento)) == multiset(Filter(rows, DelEvento(idEvento)))
    ensures SortedBy(FindByEvento(rows, idEvento), MasReciente)
  {
    var q := Filter(rows, DelEvento(idEvento));
    assert forall x :: x in SortBy(q, MasReciente) <==> x in multiset(SortBy(q, MasReciente));
    assert forall x :: x in q <==> x in multiset(q);
    MasRecienteOrden();
    SortBySorted(q, MasReciente);
  }

  datatype Estadisticas = Estadisticas(total: nat, con_evidencias: nat, sin_evidencias: nat)

  /** The incident has at least one evidence in the evidence table. */
  function ConEvidencias(evidencias: seq<Evidencia>): Incidencia -> bool
  {
    (i: Incidencia) => exists e :: e in evidencias && e.id_incidencia == i.id_incidencia
  }

  function SinEvidencias(evidencias: seq<Evidencia>): Incidencia -> bool
  {
    (i: Incidencia) => !exists e :: e in evidencias && e.id_incidencia == i.id_incidencia
  }

  /** getEstadisticasConEvidencias (counts only): the event's incidents split
      into those with and without evidence. */
  function EstadisticasConEvidencias(rows: seq<Incidencia>, idEvento: int, evidencias: seq<Evidencia>)
    : (r: Estadisticas)
    ensures r.total == r.con_evidencias + r.sin_evidencias
    ensures r.total == |Filter(rows, DelEvento(idEvento))|
    ensures r.con_evidencias <= r.total
  {
    var incidencias := FindByEvento(rows, idEvento);
    var con := Filter(incidencias, ConEvidencias(evidencias));
    var sin := Filter(incidencias, SinEvidencias(evidencias));
    FilterPartition(incidencias, ConEvidencias(evidencias), SinEvidencias(evidencias));
    Estadisticas(|incidencias|, |con|, |sin|)
  }

  /** An incident counts as "with evidence" exactly when an evidence row names it. */
  lemma EstadisticasParticion(rows: seq<Incidencia>, idEvento: int, evidencias: seq<Evidencia>)
    ensures forall x :: x in Filter(FindByEvento(rows, idEvento), ConEvidencias(evidencias)) <==>
      x in rows && x.id_evento == idEvento && exists e :: e in evidencias && e.id_incidencia == x.id_incidencia
    ensures forall x :: x in Filter(FindByEvento(rows, idEvento), SinEvidencias(evidencias)) <==>
      x in rows && x.id_evento == idEvento && !exists e :: e in evidencias && e.id_incidencia == x.id_incidencia
  {
    FindByEventoExacto(rows, idEvento);
  }

  // ---------------------------------------------------------------------
  // The table

  class IncidenciasTable {
    var rows: map<int, Incidencia>
    /** The next value of the serial primary key. */
    var nextId: int

    /** Every row sits under its own key. A body may name its key, so the
        sequence can lag behind the stored keys. */
    ghost predicate Valid()
      reads this
    {
      1 <= nextId && ClavesPropias(rows, Clave())
    }

    constructor ()
      ensures Valid() && rows == map[] && nextId == 1
    {
      rows := map[];
      nextId := 1;
    }

    /** findOne: the row, or NotFound. */
    method FindOne(id: int) returns (r: Result<Incidencia>)
      ensures id in rows ==> r == Ok(rows[id])
      ensures id !in rows ==> r == Err(NotFound(NoEncontrada(id)))
    {
      if id in rows {
        r := Ok(rows[id]);
      } else {
        r := Err(NotFound(NoEncontrada(id)));
      }
    }

    /** create: `save` of the body. A body naming the key of a stored row
        overwrites it. Otherwise the row is inserted under the next value of
        the sequence, whatever key the body names; the value is consumed
        even when that key is already taken. */
    method Create(data: IncidenciaData) returns (r: Result<Incidencia>)
      requires Valid()
      modifies this
      ensures Valid()
      ensures !CamposRequeridos(data) ==>
        r == Err(PlainError(FALTAN_CAMPOS)) && rows == old(rows) && nextId == old(nextId)
      ensures CamposRequeridos(data) && !ClaveGuardada(old(rows), data.id_incidencia) ==>
        && nextId == old(nextId) + 1
        && (old(nextId) in old(rows) ==> r == Err(QueryFailed(UNIQUE_VIOLATION)) && rows == old(rows))
        && (old(nextId) !in old(rows) ==>
              r == Ok(NuevaIncidencia(old(nextId), data)) && rows == old(rows)[old(nextId) := r.value])
      ensures CamposRequeridos(data) && ClaveGuardada(old(rows), data.id_incidencia) ==>
        var k := data.id_incidencia.value;
        && nextId == old(nextId)
        && r == Ok(Sobrescrita(old(rows)[k], data))
        && rows == old(rows)[k := r.value]
    {
      if !CamposRequeridos(data) {
        return Err(PlainError(FALTAN_CAMPOS));
      }
      if !ClaveGuardada(rows, data.id_incidencia) {
        var row := NuevaIncidencia(nextId, data);
        var w := Insertar(rows, row, Clave());
        nextId := nextId + 1;
        if w.ClaveDuplicada? {
          return Err(QueryFailed(UNIQUE_VIOLATION));
        }
        rows := w.rows;
        r := Ok(row);
      } else {
        var k := data.id_incidencia.value;
        var row := Sobrescrita(rows[k], data);
        rows := rows[k := row];
        r := Ok(row);
      }
    }

    /** update: the `UPDATE` writes the body's columns, the key among them,
        and then the row is read back under `id`, which fails once the key
        has moved. */
    method Update(id: int, data: IncidenciaData) returns (r: Result<Incidencia>)
      requires Valid()
      modifies this
      ensures Valid() && nextId == old(nextId)
      ensures id !in old(rows) ==> r == Err(NotFound(NoEncontrada(id))) && rows == old(rows)
      ensures id in old(rows) ==>
        var row := Actualizar(old(rows)[id], SoloCampos(data));
        var w := ActualizarPorClave(old(rows), id, row, Clave());
        && (w.ClaveDuplicada? ==> r == Err(QueryFailed(UNIQUE_VIOLATION)) && rows == old(rows))
        && (w.Escrita? ==> rows == w.rows)
        && (w.Escrita? && row.id_incidencia == id ==> r == Ok(row))
        && (w.Escrita? && row.id_incidencia != id ==> r == Err(NotFound(NoEncontrada(id))))
    {
      if id !in rows {
        return Err(NotFound(NoEncontrada(id)));
      }
      var row := Actualizar(rows[id], SoloCampos(data));
      var w := ActualizarPorClave(rows, id, row, Clave());
      if w.ClaveDuplicada? {
        return Err(QueryFailed(UNIQUE_VIOLATION));
      }
      rows := w.rows;
      if id in rows {
        r := Ok(rows[id]);
      } else {
        r := Err(NotFound(NoEncontrada(id)));
      }
    }

    /** cerrar, with the clock reading `ahora` passed in. */
    method Cerrar(id: int, usuarioCierra: int, ahora: int) returns (r: Result<Incidencia>)
      requires Valid()
      modifies this
      ensures Valid() && nextId == old(nextId)
      ensures id !in old(rows) ==> r == Err(NotFound(NoEncontrada(id))) && rows == old(rows)
      ensures id in old(rows) ==>
        && r == Ok(Cerrada(old(rows)[id], usuarioCierra, ahora))
        && rows == old(rows)[id := r.value]
    {
      if id !in rows {
        return Err(NotFound(NoEncontrada(id)));
      }
      var row := Cerrada(rows[id], usuarioCierra, ahora);
      rows := rows[id := row];
      r := Ok(row);
    }

    /** remove: a hard delete of the row. */
    method Remove(id: int) returns (r: Result<Mensaje>)
      requires Valid()
      modifies this
      ensures Valid() && nextId == old(nextId)
      ensures id !in old(rows) ==> r == Err(NotFound(NoEncontrada(id))) && rows == old(rows)
      ensures id in old(rows) ==>
        && r == Ok(Mensaje(true, "Incidencia " + IntToString(id) + " eliminada correctamente"))
        && rows == old(rows) - {id}
    {
      if id !in rows {
        return Err(NotFound(NoEncontrada(id)));
      }
      rows := rows - {id};
      r := Ok(Mensaje(true, "Incidencia " + IntToString(id) + " eliminada correctamente"));
    }

    /** findByEvento over the stored rows: each of the event's rows once. */
    method FindByEventoM(idEvento: int) returns (r: seq<Incidencia>)
      requires Valid()
      ensures forall x :: x in r <==> x in rows.Values && x.id_evento == idEvento
      ensures forall x :: x in r ==> multiset(r)[x] == 1
      ensures SortedBy(r, MasReciente)
    {
      var scan := Values(rows);
      PropiasInyectiva(rows, Clave());
      assert Distinct(scan);
      r := FindByEvento(scan, idEvento);
      FindByEventoExacto(scan, idEvento);
      forall x | x in r
        ensures x in scan && multiset(r)[x] == multiset(scan)[x]
      {
        FilterCount(scan, DelEvento(idEvento), x);
      }
      UnaVez(scan, r);
    }

    /** filtrar over the stored rows: each matching row once. */
    method FiltrarM(idEvento: int, f: Filtros) returns (r: seq<Incidencia>)
      requires Valid()
      ensures forall x :: x in r <==> x in rows.Values && x.id_evento == idEvento && CumpleFiltros(f, x)
      ensures forall x :: x in r ==> multiset(r)[x] == 1
      ensures SortedBy(r, MasReciente)
    {
      var scan := Values(rows);
      PropiasInyectiva(rows, Clave());
      assert Distinct(scan);
      r := Filtrar(scan, idEvento, f);
      FiltrarExacto(scan, idEvento, f);
      UnaVez(scan, r);
    }

    /** getEstadisticasConEvidencias over the stored rows and the evidence table. */
    method GetEstadisticasConEvidencias(idEvento: int, evidencias: seq<Evidencia>) returns (r: Estadisticas)
      ensures r.total == r.con_evidencias + r.sin_evidencias
    {
      var scan := Values(rows);
      r := EstadisticasConEvidencias(scan, idEvento, evidencias);
    }
  }
}
