/** The incident routes: reads open to anyone and wrapped as `{ ok: true,
    data }`; create, update and close for ADMIN and CAPTURISTA; delete for
    ADMIN only. A CAPTURISTA may only edit incidents they created; closing
    has no such check. */
module IncidenciasController {
  import opened Common
  import opened Lists
  import opened Entities
  import opened Text
  import opened Tablas
  import opened JwtStrategy
  import opened IncidenciasService
  import CorporacionesService
  import MotivosService

  const SIN_PERMISO := "No tienes permiso para editar esta incidencia"

  /** The `{ ok: true, data }` body of a successful route. */
  datatype Respuesta<T> = Respuesta(ok: bool, data: T)

  /** A success is wrapped in the `{ ok: true, data }` body; a failure
      passes through. */
  function Envolver<T>(r: Result<T>): (e: Result<Respuesta<T>>)
    ensures r.Ok? ==> e == Ok(Respuesta(true, r.value))
    ensures r.Err? ==> e == Err(r.error)
  {
    if r.Ok? then Ok(Respuesta(true, r.value)) else Err(r.error)
  }

  /** The routes, grouped by the role list they declare. */
  datatype Ruta = Lectura | Crear | Editar | Cerrar | Eliminar

  /** The `@Roles` list of each route; the read routes have no guard. */
  predicate RolAdmitido(ruta: Ruta, role: string)
  {
    match ruta
    case Lectura => true
    case Crear | Editar | Cerrar => role == ROL_ADMIN || role == ROL_CAPTURISTA
    case Eliminar => role == ROL_ADMIN
  }

  lemma SoloAdminElimina(role: string)
    ensures RolAdmitido(Eliminar, role) <==> role == ROL_ADMIN
    ensures RolAdmitido(Cerrar, role) <==> RolAdmitido(Editar, role)
  {
  }

  /** The body create passes to the service: the request body with the
      caller as creator, whatever the body said. */
  function CargaCreate(data: IncidenciaData, user: Principal): (d: IncidenciaData)
    ensures d.usuario_crea == Some(user.userId)
    ensures d.(usuario_crea := data.usuario_crea) == data
  {
    data.(usuario_crea := Some(user.userId))
  }

  /** A caller with role `role` and id `userId` may edit an incident created
      by `creador`. */
  predicate PuedeEditar(role: string, userId: int, creador: int)
  {
    role != ROL_CAPTURISTA || creador == userId
  }

  /** The check update runs before calling the service. */
  function DecisionEditar(user: Principal, id: int, rows: map<int, Incidencia>): (o: Outcome)
    ensures o == Pass <==>
      user.role != ROL_CAPTURISTA || (id in rows && PuedeEditar(user.role, user.userId, rows[id].usuario_crea))
    ensures user.role == ROL_CAPTURISTA && id !in rows ==> o == Fail(NotFound(NoEncontrada(id)))
    ensures user.role == ROL_CAPTURISTA && id in rows && rows[id].usuario_crea != user.userId ==>
              o == Fail(PlainError(SIN_PERMISO))
  {
    if user.role != ROL_CAPTURISTA then Pass
    else if id !in rows then Fail(NotFound(NoEncontrada(id)))
    else if rows[id].usuario_crea != user.userId then Fail(PlainError(SIN_PERMISO))
    else Pass
  }

  method FindByEvento(t: IncidenciasTable, idEvento: int) returns (r: Respuesta<seq<Incidencia>>)
    requires t.Valid()
    ensures r.ok
    ensures forall x :: x in r.data <==> x in t.rows.Values && x.id_evento == idEvento
    ensures forall x :: x in r.data ==> multiset(r.data)[x] == 1
    ensures SortedBy(r.data, MasReciente)
  {
    var data := t.FindByEventoM(idEvento);
    r := Respuesta(true, data);
  }

  method Filtrar(t: IncidenciasTable, idEvento: int, f: Filtros) returns (r: Respuesta<seq<Incidencia>>)
    requires t.Valid()
    ensures r.ok
    ensures forall x :: x in r.data <==> x in t.rows.Values && x.id_evento == idEvento && CumpleFiltros(f, x)
    ensures forall x :: x in r.data ==> multiset(r.data)[x] == 1
    ensures SortedBy(r.data, MasReciente)
  {
    var data := t.FiltrarM(idEvento, f);
    r := Respuesta(true, data);
  }

  method FindOne(t: IncidenciasTable, id: int) returns (r: Result<Respuesta<Incidencia>>)
    ensures id in t.rows ==> r == Ok(Respuesta(true, t.rows[id]))
    ensures id !in t.rows ==> r == Err(NotFound(NoEncontrada(id)))
  {
    var found := t.FindOne(id);
    r := Envolver(found);
  }

  /** getCorporaciones: the active corporations by name. */
  method GetCorporaciones(c: CorporacionesService.CorporacionesTable) returns (r: Respuesta<seq<Corporacion>>)
    requires c.Valid()
    ensures r.ok
    ensures forall x :: x in r.data <==> x in c.rows.Values && x.estatus == ACTIVO
    ensures forall x :: x in r.data ==> multiset(r.data)[x] == 1
    ensures SortedBy(r.data, CorporacionesService.NombreAntes)
  {
    var data := c.FindActivasM();
    r := Respuesta(true, data);
  }

  /** getMotivos: the active motives by name. */
  method GetMotivos(m: MotivosService.MotivosTable) returns (r: Respuesta<seq<Motivo>>)
    requires m.Valid()
    ensures r.ok
    ensures forall x :: x in r.data <==> x in m.rows.Values && x.estatus == ACTIVO
    ensures forall x :: x in r.data ==> multiset(r.data)[x] == 1
    ensures SortedBy(r.data, MotivosService.NombreAntes)
  {
    var data := m.FindActivosM();
    r := Respuesta(true, data);
  }

  /** create: the service's `save` of the body with the caller as creator.
      A body that names the key of a stored incident overwrites it, whoever
      created it, and the caller becomes its creator; any other body is
      inserted under the sequence's next value. */
  method Create(t: IncidenciasTable, data: IncidenciaData, user: Principal)
    returns (r: Result<Respuesta<Incidencia>>)
    requires RolAdmitido(Crear, user.role)
    requires t.Valid()
    modifies t
    ensures t.Valid()
    ensures !CamposRequeridos(CargaCreate(data, user)) ==>
      r == Err(PlainError(FALTAN_CAMPOS)) && t.rows == old(t.rows) && t.nextId == old(t.nextId)
    ensures CamposRequeridos(CargaCreate(data, user)) && !ClaveGuardada(old(t.rows), data.id_incidencia) ==>
      && t.nextId == old(t.nextId) + 1
      && (old(t.nextId) in old(t.rows) ==>
            r == Err(QueryFailed(UNIQUE_VIOLATION)) && t.rows == old(t.rows))
      && (old(t.nextId) !in old(t.rows) ==>
            && r == Ok(Respuesta(true, NuevaIncidencia(old(t.nextId), CargaCreate(data, user))))
            && t.rows == old(t.rows)[old(t.nextId) := r.value.data])
    ensures CamposRequeridos(CargaCreate(data, user)) && ClaveGuardada(old(t.rows), data.id_incidencia) ==>
      var k := data.id_incidencia.value;
      && t.nextId == old(t.nextId)
      && r == Ok(Respuesta(true, Sobrescrita(old(t.rows)[k], CargaCreate(data, user))))
      && t.rows == old(t.rows)[k := r.value.data]
    ensures r.Ok? ==> r.value.data.usuario_crea == user.userId
  {
    var created := t.Create(CargaCreate(data, user));
    r := Envolver(created);
  }

  /** update: the ownership gate for a CAPTURISTA, then the service's update. */
  method Update(t: IncidenciasTable, id: int, data: IncidenciaData, user: Principal)
    returns (r: Result<Respuesta<Incidencia>>)
    requires RolAdmitido(Editar, user.role)
    requires t.Valid()
    modifies t
    ensures t.Valid() && t.nextId == old(t.nextId)
    ensures id !in old(t.rows) ==> r == Err(NotFound(NoEncontrada(id))) && t.rows == old(t.rows)
    ensures DecisionEditar(user, id, old(t.rows)).Fail? ==>
      r == Err(DecisionEditar(user, id, old(t.rows)).error) && t.rows == old(t.rows)
    ensures DecisionEditar(user, id, old(t.rows)) == Pass && id in old(t.rows) ==>
      var row := Actualizar(old(t.rows)[id], SoloCampos(data));
      var w := ActualizarPorClave(old(t.rows), id, row, Clave());
      && (w.ClaveDuplicada? ==> r == Err(QueryFailed(UNIQUE_VIOLATION)) && t.rows == old(t.rows))
      && (w.Escrita? ==> t.rows == w.rows)
      && (w.Escrita? && row.id_incidencia == id ==> r == Ok(Respuesta(true, row)))
      && (w.Escrita? && row.id_incidencia != id ==> r == Err(NotFound(NoEncontrada(id))))
  {
    var gate := DecisionEditar(user, id, t.rows);
    if gate.Fail? {
      return Err(gate.error);
    }
    var updated := t.Update(id, data);
    r := Envolver(updated);
  }

  /** cerrar: the caller is recorded as closer; no ownership check. */
  method CerrarRuta(t: IncidenciasTable, id: int, user: Principal, ahora: int)
    returns (r: Result<Respuesta<Incidencia>>)
    requires RolAdmitido(Cerrar, user.role)
    requires t.Valid()
    modifies t
    ensures t.Valid() && t.nextId == old(t.nextId)
    ensures id !in old(t.rows) ==> r == Err(NotFound(NoEncontrada(id))) && t.rows == old(t.rows)
    ensures id in old(t.rows) ==>
      && r == Ok(Respuesta(true, Cerrada(old(t.rows)[id], user.userId, ahora)))
      && t.rows == old(t.rows)[id := r.value.data]
  {
    var closed := t.Cerrar(id, user.userId, ahora);
    r := Envolver(closed);
  }

  /** remove: the service's own `{ ok, message }` result, unwrapped. */
  method Remove(t: IncidenciasTable, id: int, user: Principal) returns (r: Result<Mensaje>)
    requires RolAdmitido(Eliminar, user.role)
    requires t.Valid()
    modifies t
    ensures t.Valid() && t.nextId == old(t.nextId)
    ensures id !in old(t.rows) ==> r == Err(NotFound(NoEncontrada(id))) && t.rows == old(t.rows)
    ensures id in old(t.rows) ==>
      && r == Ok(Mensaje(true, "Incidencia " + IntToString(id) + " eliminada correctamente"))
      && t.rows == old(t.rows) - {id}
  {
    r := t.Remove(id);
  }
}
