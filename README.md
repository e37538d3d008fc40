# Incident register: a verified model of the services and the client rules

The system records incidents ("incidencias") raised during events
("eventos"). Each incident names a corporation ("corporación") and a motive
("motivo"), and may carry uploaded evidence files ("evidencias"). Users
have the role ADMIN or CAPTURISTA. This project models four parts of it in
Dafny:

- **The backend services.** These are the incident, evidence,
  corporation, motive, event and user-administration services. Each is a
  class over an in-memory table, `rows: map<int, Row>`, and `nextId`
  stands for the serial primary key. Each operation returns a `Result`:
  `NotFound`, `Conflict`, `Forbidden`, `BadRequest`, `Unauthorized` and
  `PayloadTooLarge` stand for the framework's HTTP exceptions, and
  `PlainError` for a plain `Error`. Each method's contract states its
  outcome, including every error case, and the whole new table. A failed
  operation leaves the table unchanged. A request body is a partial row and
  may carry the primary key. `create` then writes over the row stored
  under that key, and otherwise ignores the key and inserts under the
  sequence; `update` can move a row to it (`Tablas`).
- **The controllers and their gates.** These are the incident routes with
  their role lists and ownership check, and the evidence upload route with
  its file filter, file-type mapping, id parsing and ownership gate.
  Authentication is the credential check and token payload of the auth
  service, and the cookie-first token extraction and payload mapping of
  the session strategy.
- **The queries.** `findByEvento`, `filtrar`, `findActivas` and similar
  queries are functions over a sequence of rows. They filter (`Lists.Filter`)
  and then sort (`Lists.SortBy`, an insertion sort by a total preorder).
  Lemmas prove that a result holds exactly the qualifying rows, each as
  often as it is stored, in the stated order. A table-level method scans
  the map into a sequence (`Lists.Values`) and calls the function.
- **The web client.**
  - The route guard is a total function from the path and the cookie to a
    decision.
  - The two event pages are classes holding the page state: the loaded
    list, the list on screen, the filter boxes and the edit form.
    `AplicarFiltros` filters step by step as the page does, and is proved
    equal to a specification function. Lemmas show that function is one
    order-preserving filter by the conjunction of the non-empty boxes.

The shared pieces are:

- `Common`: JavaScript truthiness, `a || b` on optional strings, and
  TypeORM's partial update of a column.
- `Text`: ASCII case mapping, substring search, decimal conversion in both
  directions, and the text before the first `T`.
- `Lists`: filtering, sorting and their general laws, and the scan of a
  table into a list.
- `Tablas`: the insert and the keyed update a repository performs, with the
  key collisions and moves they allow.
- `Entities`: one datatype per table.

## Model

| member | source | states |
|---|---|---|
| Entities.Alternado | backend/src/corporaciones/corporaciones.service.ts:138 | The toggled status: ACTIVO becomes INACTIVO; any other value becomes ACTIVO. |
| Entities.AlternarDosVeces | backend/src/usuario-admin/usuario-admin.service.ts:96-97 | Toggling twice restores ACTIVO and INACTIVO, and turns any other value into INACTIVO. |
| Common.OrStr | backend/src/incidencias/incidencias.service.ts:66 | The JavaScript or-default on an optional string: the supplied value when it is truthy, the default otherwise. |
| Common.Patch | backend/src/incidencias/incidencias.service.ts:93 | A partial update writes a supplied key and keeps the column of an absent key. |
| Tablas.Insertar | backend/src/incidencias/incidencias.service.ts:69 | An insert under the row's own key: refused iff the key is already stored. Otherwise exactly that key is added with the row, every other row is kept, and each row stays under its own key. |
| Tablas.ActualizarPorClave | backend/src/incidencias/incidencias.service.ts:93 | An update of the row under `id` to a row whose key may differ: refused iff the new key is another stored row's. Otherwise the key set loses `id` and gains the new key, which holds the row, every other row is kept, and each row stays under its own key. |
| Tablas.MismaClave | backend/src/incidencias/incidencias.service.ts:93 | An update that keeps the key is the in-place update, never refused, and keeps the number of rows. |
| Tablas.MoverConserva | backend/src/incidencias/incidencias.service.ts:93 | A successful key move keeps the number of rows. |
| Tablas.PropiasInyectiva | backend/src/incidencias/incidencias.entity.ts:10-11 | Rows under their own keys are distinct: two keys never hold the same row. |
| Tablas.ClaveDeFila | backend/src/incidencias/incidencias.entity.ts:10-11 | A stored row is found under its own key. |
| Lists.Values | backend/src/incidencias/incidencias.service.ts:20-26 | A scan of a table lists exactly its values, one entry per key, and without repetitions when no two keys hold the same value. |
| IncidenciasService.NuevaIncidencia | backend/src/incidencias/incidencias.service.ts:64-67 | The fresh row saved under the key `id` holds the supplied creator and event. Its estatus is the supplied one when truthy, else ABIERTA. |
| IncidenciasService.Sobrescrita | backend/src/incidencias/incidencias.service.ts:64-69 | Saving a body that names a stored key writes the body's columns over that row, with estatus defaulted to ABIERTA. With every required field, the result is the fresh row under that key, except that usuario_cierra and fecha_cierre keep their stored values unless supplied. |
| IncidenciasService.Actualizar | backend/src/incidencias/incidencias.service.ts:83-93 | Column by column, the primary key included, a supplied value overwrites and an absent one keeps the stored value. A payload with no column leaves the row unchanged. |
| IncidenciasService.Cerrada | backend/src/incidencias/incidencias.service.ts:107-114 | A closed row has estatus CERRADA, the closer and the closing time. Every other column is the old one. |
| IncidenciasService.CerrarDosVeces | backend/src/incidencias/incidencias.service.ts:98-116 | Closing twice equals one close by the second caller at the second time. The prior status plays no part. |
| IncidenciasService.MasRecienteOrden | backend/src/incidencias/incidencias.service.ts:24 | Order by fecha descending, then hora descending, is a total preorder. |
| IncidenciasService.FindByEvento | backend/src/incidencias/incidencias.service.ts:20-26 | Reference definition of findByEvento: the event's rows, sorted by fecha and then hora, both descending. |
| IncidenciasService.CumpleFiltros | backend/src/incidencias/incidencias.service.ts:155-191 | Reference definition of the filters: an incident meets every supplied filter. descripcion is a case-insensitive substring match; the others are equality. |
| IncidenciasService.Condiciones | backend/src/incidencias/incidencias.service.ts:155-191 | The `where` on the event and the conditional `andWhere` clauses, one narrowing per supplied filter, in the source's order. |
| IncidenciasService.Filtrar | backend/src/incidencias/incidencias.service.ts:150-196 | Reference definition of filtrar: the conditions, then the most-recent-first order. |
| IncidenciasService.CondicionesUnFiltro | backend/src/incidencias/incidencias.service.ts:157-191 | The chain of conditional `andWhere` clauses equals one filter by the event and every supplied filter. |
| IncidenciasService.FiltrarExacto | backend/src/incidencias/incidencias.service.ts:150-196 | filtrar returns exactly the event's rows that meet every truthy filter, each as often as stored, sorted most recent first. descripcion is a case-insensitive substring match; the other filters are equality. |
| IncidenciasService.FiltrarSinFiltros | backend/src/incidencias/incidencias.service.ts:150-196 | With no filter, filtrar returns what findByEvento returns. |
| IncidenciasService.FindByEventoExacto | backend/src/incidencias/incidencias.service.ts:20-26 | findByEvento returns exactly the event's rows, with their multiplicities, sorted by fecha and hora descending. |
| IncidenciasService.EstadisticasConEvidencias | backend/src/incidencias/incidencias.service.ts:199-212 | total = con_evidencias + sin_evidencias, and total is the number of the event's incidents. |
| IncidenciasService.EstadisticasParticion | backend/src/incidencias/incidencias.service.ts:202-207 | The "with evidence" group is exactly the event's incidents that some evidence names; the "without" group is exactly the rest. |
| IncidenciasService.IncidenciasTable.constructor | backend/src/incidencias/incidencias.service.ts:9-17 | The table starts empty, with the serial key at 1. |
| IncidenciasService.IncidenciasTable.FindOne | backend/src/incidencias/incidencias.service.ts:29-47 | findOne returns the stored row, or NotFound with the message "Incidencia con ID … no encontrada". |
| IncidenciasService.IncidenciasTable.Create | backend/src/incidencias/incidencias.service.ts:50-70 | A missing or falsy required field fails with "Faltan campos obligatorios" and stores nothing. A body naming the key of a stored row writes over it (`Sobrescrita`) and the sequence stays. Any other body, with no key or a key no row holds, goes under the next sequence value, which advances, and the key it names is ignored; if that value is already stored, it fails with the unique violation 23505, stores nothing and still consumes the sequence value. Every row stays under its own key. |
| IncidenciasService.IncidenciasTable.Update | backend/src/incidencias/incidencias.service.ts:73-95 | A missing id fails with NotFound and changes nothing. Otherwise the patched row, relation keys dropped, is written by `Tablas.ActualizarPorClave`. A new key held by another row gives the unique violation with no change. A kept key returns the patched row. A moved key leaves the row under its new key and gives NotFound for the old id. |
| IncidenciasService.IncidenciasTable.Cerrar | backend/src/incidencias/incidencias.service.ts:98-117 | A missing id fails with NotFound and changes nothing. Otherwise only that row changes, to its closed form. |
| IncidenciasService.IncidenciasTable.Remove | backend/src/incidencias/incidencias.service.ts:120-131 | A missing id fails with NotFound and changes nothing. Otherwise the row is deleted and the message "Incidencia N eliminada correctamente" returned. |
| IncidenciasService.IncidenciasTable.FindByEventoM | backend/src/incidencias/incidencias.service.ts:20-26 | Returns exactly the stored rows of the event, each once, most recent first. |
| IncidenciasService.IncidenciasTable.FiltrarM | backend/src/incidencias/incidencias.service.ts:150-196 | Returns exactly the stored rows of the event that meet every filter, each once, most recent first. |
| IncidenciasService.IncidenciasTable.GetEstadisticasConEvidencias | backend/src/incidencias/incidencias.service.ts:199-212 | The counts over the stored rows add up: total = con + sin. |
| IncidenciasController.Envolver | backend/src/incidencias/incidencias.controller.ts:29 | A success is wrapped as `{ ok: true, data }`; a failure passes through unchanged. |
| IncidenciasController.RolAdmitido | backend/src/incidencias/incidencias.controller.ts:55-102 | The `@Roles` lists: read routes are open, create, edit and close admit ADMIN and CAPTURISTA, and delete admits ADMIN only. |
| IncidenciasController.PuedeEditar | backend/src/incidencias/incidencias.controller.ts:79-85 | A CAPTURISTA may edit only an incident they created; any other role may edit any incident. |
| IncidenciasController.SoloAdminElimina | backend/src/incidencias/incidencias.controller.ts:99-105 | Only ADMIN may delete. The close route admits exactly the roles the edit route admits. |
| IncidenciasController.CargaCreate | backend/src/incidencias/incidencias.controller.ts:60-64 | The body passed to create has the caller's id as usuario_crea and is otherwise the request body. |
| IncidenciasController.DecisionEditar | backend/src/incidencias/incidencias.controller.ts:76-85 | Update proceeds iff the caller is not a CAPTURISTA, or created the incident. A CAPTURISTA on a missing id gets NotFound; on another's incident, the plain error "No tienes permiso para editar esta incidencia". |
| IncidenciasController.FindByEvento | backend/src/incidencias/incidencias.controller.ts:27-30 | The public route wraps the event's rows as `{ ok: true, data }`, each row once, most recent first. |
| IncidenciasController.Filtrar | backend/src/incidencias/incidencias.controller.ts:32-38 | The public route wraps exactly the filtered rows, each once, most recent first. |
| IncidenciasController.FindOne | backend/src/incidencias/incidencias.controller.ts:40-43 | The public route wraps the row, or passes NotFound through. |
| IncidenciasController.GetCorporaciones | backend/src/incidencias/incidencias.service.ts:134-139 | The catalog route wraps exactly the ACTIVO corporations, each once, sorted by name. |
| IncidenciasController.GetMotivos | backend/src/incidencias/incidencias.service.ts:142-147 | The catalog route wraps exactly the ACTIVO motives, each once, sorted by name. |
| IncidenciasController.Create | backend/src/incidencias/incidencias.controller.ts:55-65 | Create runs the service's create on the body with the caller as creator, with each of its outcomes: the missing-field error, the write over a stored row whose key the body names, and otherwise the insert under the sequence, whatever key the body names, or its key collision. A saved row always has the caller as usuario_crea. |
| IncidenciasController.Update | backend/src/incidencias/incidencias.controller.ts:67-88 | A rejected CAPTURISTA changes nothing. An admitted caller gets exactly the service's update, including the key collision and the moved-key NotFound, wrapped as `{ ok: true, data }`. |
| IncidenciasController.CerrarRuta | backend/src/incidencias/incidencias.controller.ts:90-97 | Any ADMIN or CAPTURISTA closes any existing incident and is recorded as closer; there is no ownership check. |
| IncidenciasController.Remove | backend/src/incidencias/incidencias.controller.ts:99-106 | An ADMIN deletes an existing row and gets "Incidencia N eliminada correctamente", or gets NotFound with no change. |
| EvidenciasService.ValidateCapturistaOwnership | backend/src/evidencias/evidencias.service.ts:26-39 | A missing incident gives NotFound. An incident created by someone else gives Forbidden "Solo puedes subir evidencias de incidencias que registraste". The check passes iff the caller created the incident. |
| EvidenciasService.ValidarCreate | backend/src/evidencias/evidencias.service.ts:66-77 | A missing or falsy field gives BadRequest "Todos los campos son obligatorios". A type other than JPG, PNG or PDF gives BadRequest. The check passes iff all four fields are truthy and the type is allowed. |
| EvidenciasService.MasNuevaOrden | backend/src/evidencias/evidencias.service.ts:46 | Order by fecha_subida descending is a total preorder. |
| EvidenciasService.FindByIncidencia | backend/src/evidencias/evidencias.service.ts:42-48 | Reference definition of findByIncidencia: the incident's evidences, newest first. |
| EvidenciasService.FindByIncidenciaExacto | backend/src/evidencias/evidencias.service.ts:42-48 | findByIncidencia returns exactly the incident's evidences, with their multiplicities, newest first. |
| EvidenciasService.Indice | backend/src/evidencias/evidencias.service.ts:133 | Finds the entry of a type in the running counts, or says that none exists. |
| EvidenciasService.CantidadDeEntrada | backend/src/evidencias/evidencias.service.ts:131-137 | With unique keys, the count read for a key is its entry's count. |
| EvidenciasService.CantidadDeAusente | backend/src/evidencias/evidencias.service.ts:133 | A type not yet counted reads as 0. |
| EvidenciasService.Incremento | backend/src/evidencias/evidencias.service.ts:133 | Adding one to an entry adds one to the total and to that key's count, and nothing to other keys. |
| EvidenciasService.ClavesIncremento | backend/src/evidencias/evidencias.service.ts:133 | Adding one to an entry keeps the set of keys and their uniqueness. |
| EvidenciasService.ClavesNueva | backend/src/evidencias/evidencias.service.ts:133 | A new key with count 1 adds that key and keeps the keys unique. It adds one to the total and one to that key's count. |
| EvidenciasService.AcumularExistente | backend/src/evidencias/evidencias.service.ts:133 | Counting one more evidence of an existing type has the same effect on keys, total and counts. |
| EvidenciasService.Acumular | backend/src/evidencias/evidencias.service.ts:132-135 | One step of the reduce adds the type to the keys and keeps them unique. The total grows by one, and so does exactly that type's count. |
| EvidenciasService.CuentaTipoPaso | backend/src/evidencias/evidencias.service.ts:131-137 | The number of evidences of a type in a prefix grows by one exactly at an evidence of that type. |
| EvidenciasService.PorTipo | backend/src/evidencias/evidencias.service.ts:131-137 | por_tipo has one unique key per type present. Each count is the number of evidences of that type, and the counts sum to the number of evidences. |
| EvidenciasService.EvidenciasTable.constructor | backend/src/evidencias/evidencias.service.ts:17-24 | The table starts empty, with the serial key at 1. |
| EvidenciasService.EvidenciasTable.FindByIncidenciaM | backend/src/evidencias/evidencias.service.ts:42-48 | Returns exactly the stored evidences of the incident, each once, newest first. |
| EvidenciasService.EvidenciasTable.Create | backend/src/evidencias/evidencias.service.ts:65-81 | A failed check stores nothing. Otherwise the record is stored under a fresh id with the upload time. Every stored row added by create has an allowed type. |
| EvidenciasService.EvidenciasTable.Remove | backend/src/evidencias/evidencias.service.ts:84-109 | A missing id gives NotFound with no change. Otherwise the row is deleted and "Evidencia N eliminada correctamente" returned, whatever happens to the file. |
| EvidenciasService.EvidenciasTable.GetEstadisticasPorIncidencia | backend/src/evidencias/evidencias.service.ts:128-143 | evidencias is exactly the incident's evidences, each once, newest first, and total is their number. Each por_tipo count is the number of that type, the keys are the types present, and the counts sum to total. |
| EvidenciasController.UltimoIndice | backend/src/evidencias/evidencias.controller.ts:92 | The position of the last occurrence of a character, or none when it does not occur. |
| EvidenciasController.Basename | backend/src/evidencias/evidencias.controller.ts:92 | The last path segment: a suffix of the path with no '/'. |
| EvidenciasController.Extname | backend/src/evidencias/evidencias.controller.ts:92 | The extension is empty, or a suffix of the path that starts with its only '.' and has no '/'. |
| EvidenciasController.SufijoDeSufijo | backend/src/evidencias/evidencias.controller.ts:92 | A suffix of the last segment taken at its last dot is a suffix of the path, with no '/' and no later dot. |
| EvidenciasController.TipoDeExtension | backend/src/evidencias/evidencias.controller.ts:93-95 | JPEG maps to JPG, and JPG, PNG and PDF are kept. Anything else maps to JPG, so the type is always one the service accepts. |
| EvidenciasController.TipoArchivo | backend/src/evidencias/evidencias.controller.ts:92-95 | The type derived from any file name is JPG, PNG or PDF. |
| EvidenciasController.ExtnameSimple | backend/src/evidencias/evidencias.controller.ts:92 | A plain name "base.ext" has the extension ".ext". |
| EvidenciasController.TipoArchivoSimple | backend/src/evidencias/evidencias.controller.ts:92-95 | For a plain name, the type is the mapping of the upper-cased extension. |
| EvidenciasController.TipoArchivoJpeg | backend/src/evidencias/evidencias.controller.ts:92-95 | "jpeg" in any letter case is stored as JPG. |
| EvidenciasController.TipoArchivoOculto | backend/src/evidencias/evidencias.controller.ts:92-95 | A name whose only dot comes first has no extension and is stored as JPG. |
| EvidenciasController.FiltroArchivo | backend/src/evidencias/evidencias.controller.ts:68-80 | A file passes iff its mimetype is one of the four allowed and its size is at most 5 MiB. Other mimetypes give BadRequest "Solo se permiten archivos JPG, PNG o PDF". |
| EvidenciasController.PrepararUpload | backend/src/evidencias/evidencias.controller.ts:83-113 | Checks run in order: no file, then the file filter, then a non-numeric id. The created record's uploader is the session user and its type comes from the file name. A CAPTURISTA is admitted iff they own the incident; an ADMIN skips the check. |
| EvidenciasController.IdIncidencia | backend/src/evidencias/evidencias.controller.ts:97-100 | The incident id of the body read by base-10 parseInt; an absent field or one with no leading digits gives no number. |
| EvidenciasController.UsuarioSubioIgnorado | backend/src/evidencias/evidencias.controller.ts:102-113 | The body's usuario_subio has no effect on the outcome. |
| EvidenciasController.PrepararUploadValido | backend/src/evidencias/evidencias.controller.ts:92-113 | A record that upload hands over passes the service's type check. It passes all the checks iff the ids are non-zero and the path is non-empty. |
| EvidenciasController.Upload | backend/src/evidencias/evidencias.controller.ts:54-114 | The route admits ADMIN and CAPTURISTA. Any failure before create stores nothing. Otherwise the outcome is the service's create of the prepared record. |
| CorporacionesService.NombreAntesOrden | backend/src/corporaciones/corporaciones.service.ts:28 | Order by name ascending is a total preorder. |
| CorporacionesService.FindActivas | backend/src/corporaciones/corporaciones.service.ts:25-30 | Reference definition of findActivas: the ACTIVO rows, sorted by name. |
| CorporacionesService.Referenciada | backend/src/corporaciones/corporaciones.service.ts:115-122 | Some incident names the corporation through its foreign key, which is when the database refuses its deletion. |
| CorporacionesService.FindActivasExacto | backend/src/corporaciones/corporaciones.service.ts:25-30 | findActivas returns exactly the ACTIVO rows, with their multiplicities, sorted by name. |
| CorporacionesService.ValidarCreate | backend/src/corporaciones/corporaciones.service.ts:46-60 | A falsy name gives the plain error "El nombre de la corporacion es obligatorio". A name already held gives Conflict. The check passes iff the name is truthy and new. |
| CorporacionesService.ValidarUpdate | backend/src/corporaciones/corporaciones.service.ts:80-94 | Update fails with Conflict iff a truthy, changed name is held by some row. Keeping the same name always passes. |
| CorporacionesService.Actualizar | backend/src/corporaciones/corporaciones.service.ts:96 | Column by column, the primary key included, a supplied value overwrites and an absent one keeps the stored value. |
| CorporacionesService.NuevaCorporacion | backend/src/corporaciones/corporaciones.service.ts:62-65 | The fresh row under the key `id` has the supplied name, and estatus ACTIVO unless a truthy one is supplied. |
| CorporacionesService.SobrescribirEsNueva | backend/src/corporaciones/corporaciones.service.ts:62-67 | Saving a body that names a stored key writes every column over that row, so the result is the fresh row under that key. |
| CorporacionesService.CorporacionesTable.constructor | backend/src/corporaciones/corporaciones.service.ts:11-16 | The table starts empty, with the serial key at 1. |
| CorporacionesService.CorporacionesTable.FindActivasM | backend/src/corporaciones/corporaciones.service.ts:25-30 | Returns exactly the stored ACTIVO rows, each once, sorted by name. |
| CorporacionesService.CorporacionesTable.FindOne | backend/src/corporaciones/corporaciones.service.ts:33-43 | Returns the row, or NotFound. |
| CorporacionesService.CorporacionesTable.Create | backend/src/corporaciones/corporaciones.service.ts:46-68 | A failed check stores nothing. A body naming the key of a stored row makes that row the fresh row and the sequence stays. Any other body, with no key or a key no row holds, goes under the next sequence value, which advances, and the key it names is ignored; if that value is already stored, it fails with the unique violation 23505, stores nothing and still consumes the sequence value. estatus is ACTIVO unless a truthy one is supplied. Unique names stay unique. |
| CorporacionesService.CorporacionesTable.Update | backend/src/corporaciones/corporaciones.service.ts:71-98 | A missing id gives NotFound and a name conflict gives Conflict, both with no change. Otherwise the patched row is written by `Tablas.ActualizarPorClave`: a new key or a new name held by another row gives the unique violation with no change, a kept key returns the patched row, a moved key gives NotFound for the old id. Unique names stay unique. |
| CorporacionesService.CorporacionesTable.Remove | backend/src/corporaciones/corporaciones.service.ts:101-128 | A missing id gives NotFound. A row that incidents refer to gives Conflict and stays. Otherwise the row is hard-deleted. |
| CorporacionesService.CorporacionesTable.Toggle | backend/src/corporaciones/corporaciones.service.ts:131-144 | A missing id gives NotFound. Otherwise only the status changes, to its toggled value. |
| MotivosService.NombreAntesOrden | backend/src/motivos/motivos.service.ts:24 | Order by name ascending is a total preorder. |
| MotivosService.FindActivos | backend/src/motivos/motivos.service.ts:21-26 | Reference definition of findActivos: the ACTIVO motives, sorted by name. |
| MotivosService.FindActivosExacto | backend/src/motivos/motivos.service.ts:21-26 | findActivos returns exactly the ACTIVO rows, with their multiplicities, sorted by name. |
| MotivosService.ValidarCreate | backend/src/motivos/motivos.service.ts:42-56 | A falsy name gives the plain error "El nombre del motivo es obligatorio". A duplicate gives Conflict. The check passes iff the name is truthy and new. |
| MotivosService.ValidarUpdate | backend/src/motivos/motivos.service.ts:76-87 | Uniqueness is checked only when a truthy name differs from the current one. |
| MotivosService.Actualizar | backend/src/motivos/motivos.service.ts:89 | Column by column, the primary key included, a supplied value overwrites and an absent one keeps the stored value. |
| MotivosService.NuevoMotivo | backend/src/motivos/motivos.service.ts:58-61 | The fresh row under the key `id` has the supplied name, and estatus ACTIVO unless a truthy one is supplied. |
| MotivosService.SobrescribirEsNuevo | backend/src/motivos/motivos.service.ts:58-63 | Saving a body that names a stored key writes every column over that row, so the result is the fresh row under that key. |
| MotivosService.MotivosTable.constructor | backend/src/motivos/motivos.service.ts:7-11 | The table starts empty, with the serial key at 1. |
| MotivosService.MotivosTable.FindActivosM | backend/src/motivos/motivos.service.ts:21-26 | Returns exactly the stored ACTIVO rows, each once, sorted by name. |
| MotivosService.MotivosTable.FindOne | backend/src/motivos/motivos.service.ts:29-39 | Returns the row, or NotFound "Motivo con ID … no encontrado". |
| MotivosService.MotivosTable.Create | backend/src/motivos/motivos.service.ts:42-64 | A failed check stores nothing. A body naming the key of a stored row makes that row the fresh row and the sequence stays. Any other body, with no key or a key no row holds, goes under the next sequence value, which advances, and the key it names is ignored; if that value is already stored, it fails with the unique violation 23505, stores nothing and still consumes the sequence value. estatus is ACTIVO unless a truthy one is supplied. Unique names stay unique. |
| MotivosService.MotivosTable.Update | backend/src/motivos/motivos.service.ts:67-91 | A missing id gives NotFound and a conflict gives Conflict, both with no change. Otherwise the patched row is written by `Tablas.ActualizarPorClave`: a new key or a new name held by another row gives the unique violation with no change, a kept key returns the patched row, a moved key gives NotFound for the old id. Unique names stay unique. |
| MotivosService.MotivosTable.Remove | backend/src/motivos/motivos.service.ts:94-109 | A soft delete: the row stays with estatus INACTIVO and every other column kept. The key set is unchanged. A missing id gives NotFound. |
| EventosService.NuevoEvento | backend/src/eventos/eventos.service.ts:42-48 | The fresh row saved under the key `id` has the supplied name and start date, and estatus ACTIVO unless a truthy one is given. |
| EventosService.Actualizar | backend/src/eventos/eventos.service.ts:63 | Column by column, the primary key included, a supplied value overwrites and an absent one keeps the stored value. An empty payload leaves the row unchanged. |
| EventosService.Sobrescrito | backend/src/eventos/eventos.service.ts:41-48 | Saving a body that names a stored key writes the body's columns over that row, with estatus defaulted to ACTIVO. With a name and a start date, the result is the fresh row under that key, except that an omitted end date, location or description keeps its stored value. |
| EventosService.InicioAntesOrden | backend/src/eventos/eventos.service.ts:17 | Order by fecha_inicio ascending is a total preorder. |
| EventosService.FindActivos | backend/src/eventos/eventos.service.ts:14-19 | Reference definition of findActivos: the ACTIVO events, by start date. |
| EventosService.FindByName | backend/src/eventos/eventos.service.ts:104-111 | Reference definition of findByName: the ACTIVO events whose name contains the text, by start date. |
| EventosService.FindActivosExacto | backend/src/eventos/eventos.service.ts:14-19 | findActivos returns exactly the ACTIVO events, with their multiplicities, by start date. |
| EventosService.FindByNameMiembros | backend/src/eventos/eventos.service.ts:104-111 | findByName holds exactly the active events whose name contains the text. |
| EventosService.FindByNameExacto | backend/src/eventos/eventos.service.ts:104-111 | findByName returns exactly the ACTIVO events whose name contains the text, with their multiplicities, by start date. |
| EventosService.FindByNameVacio | backend/src/eventos/eventos.service.ts:107 | Searching for the empty text is findActivos. |
| EventosService.EventosTable.constructor | backend/src/eventos/eventos.service.ts:6-11 | The table starts empty, with the serial key at 1. |
| EventosService.EventosTable.FindActivosM | backend/src/eventos/eventos.service.ts:14-19 | Returns exactly the stored ACTIVO events, each once, by start date. |
| EventosService.EventosTable.FindByNameM | backend/src/eventos/eventos.service.ts:104-111 | Returns exactly the stored ACTIVO events whose name contains the text, each once, by start date. |
| EventosService.EventosTable.FindOne | backend/src/eventos/eventos.service.ts:22-32 | Returns the row, or NotFound "Evento con ID … no encontrado". |
| EventosService.EventosTable.Create | backend/src/eventos/eventos.service.ts:35-49 | A missing name or start date gives "Nombre y fecha de inicio son obligatorios" and stores nothing. A body naming the key of a stored row writes over it (`Sobrescrito`) and the sequence stays. Any other body, with no key or a key no row holds, goes under the next sequence value, which advances, and the key it names is ignored; if that value is already stored, it fails with the unique violation 23505, stores nothing and still consumes the sequence value. A saved row's estatus is the supplied truthy one, else ACTIVO. |
| EventosService.EventosTable.Update | backend/src/eventos/eventos.service.ts:52-67 | A missing id gives NotFound with no change. Otherwise the patched row is written by `Tablas.ActualizarPorClave`. A new key held by another row gives the unique violation with no change. A kept key returns the patched row. A moved key returns no event at all, since the row is read back without a not-found check. |
| EventosService.EventosTable.Remove | backend/src/eventos/eventos.service.ts:70-93 | A soft delete: estatus becomes INACTIVO, the row and key set stay. A missing id gives NotFound. |
| UsuarioAdminService.Vista | backend/src/usuario-admin/usuario-admin.service.ts:33 | The public view has the id, name, email, role and status. It has no hash. |
| UsuarioAdminService.Vistas | backend/src/usuario-admin/usuario-admin.service.ts:30-35 | The views of a list, position by position. |
| UsuarioAdminService.IdDescOrden | backend/src/usuario-admin/usuario-admin.service.ts:32 | Order by id descending is a total preorder. |
| UsuarioAdminService.FindAll | backend/src/usuario-admin/usuario-admin.service.ts:30-35 | Reference definition of findAll: the public views of the users, by id descending. |
| UsuarioAdminService.FindAllExacto | backend/src/usuario-admin/usuario-admin.service.ts:30-35 | findAll lists the view of each user, as many entries as users, in descending id order. |
| UsuarioAdminService.FindAllUnaVez | backend/src/usuario-admin/usuario-admin.service.ts:30-35 | Users with distinct ids are listed once each. |
| UsuarioAdminService.ValidarCreate | backend/src/usuario-admin/usuario-admin.service.ts:47-54 | A missing nombre, correo or password gives "Faltan campos obligatorios". An email already stored gives Conflict "El correo ya está registrado". The check passes iff neither applies. |
| UsuarioAdminService.NuevoUsuario | backend/src/usuario-admin/usuario-admin.service.ts:56-64 | The new row stores the hash of the password, never the password itself. Its rol is CAPTURISTA and its estatus ACTIVO unless truthy values are supplied. |
| UsuarioAdminService.Actualizar | backend/src/usuario-admin/usuario-admin.service.ts:75-86 | Each truthy field overwrites its column, and every other column is unchanged. The hash is replaced only when a truthy password is supplied. |
| UsuarioAdminService.ActualizarVacio | backend/src/usuario-admin/usuario-admin.service.ts:77-84 | A body of empty or absent fields changes nothing. |
| UsuarioAdminService.VistasDeFilas | backend/src/usuario-admin/usuario-admin.service.ts:30-35 | A scan of the table has the views of exactly the stored users. |
| UsuarioAdminService.UsuariosTable.constructor | backend/src/usuario-admin/usuario-admin.service.ts:24-28 | The table starts empty, with the serial key at 1. |
| UsuarioAdminService.UsuariosTable.FindAllM | backend/src/usuario-admin/usuario-admin.service.ts:30-35 | Returns exactly the views of the stored users, one per user and each once, in descending id order. |
| UsuarioAdminService.UsuariosTable.FindOne | backend/src/usuario-admin/usuario-admin.service.ts:37-44 | Returns the view without the hash, or NotFound "Usuario N no encontrado". |
| UsuarioAdminService.UsuariosTable.Create | backend/src/usuario-admin/usuario-admin.service.ts:46-67 | A failed check stores nothing. Otherwise the new row is stored under a fresh id. Unique emails stay unique. |
| UsuarioAdminService.UsuariosTable.Update | backend/src/usuario-admin/usuario-admin.service.ts:69-88 | A missing id gives NotFound with no change. A truthy email held by another user gives the unique violation 23505 with no change. Otherwise only that row changes, and the view is returned. Unique emails stay unique. |
| UsuarioAdminService.UsuariosTable.ToggleEstatus | backend/src/usuario-admin/usuario-admin.service.ts:90-99 | A missing id gives NotFound. Otherwise only the status of that row changes, to its toggled value. |
| UsuarioAdminService.UsuariosTable.Remove | backend/src/usuario-admin/usuario-admin.service.ts:101-109 | A missing id gives NotFound. Otherwise the row is hard-deleted. |
| AuthService.BuscarPorCorreo | backend/src/auth/auth.service.ts:11 | Finds a stored user with that email, or says that none exists. |
| AuthService.ValidateUser | backend/src/auth/auth.service.ts:10-16 | An unknown email and a wrong password both give Unauthorized "Credenciales inválidas". Success returns the stored user with that email whose hash matches, and holds iff such a user is found. |
| AuthService.EstatusNoConsultado | backend/src/auth/auth.service.ts:10-16 | Changing every user's status changes neither success nor which user is returned: estatus is never consulted. |
| AuthService.BuscarConEstatus | backend/src/auth/auth.service.ts:11 | The lookup by email ignores estatus. |
| AuthService.SignAccess | backend/src/auth/auth.service.ts:18-23 | The payload is sub = idUsuario, role = rol, nombre = nombre. The expiry is the configured one when truthy, else "15m". |
| AuthService.FirmaYValidacion | backend/src/auth/auth.service.ts:19 | A payload signed for a user is mapped by the strategy to that user's id, role and name. |
| JwtStrategy.ExtraerToken | backend/src/auth/jwt.strategy.ts:9-12 | A truthy cookie token is taken first. Otherwise a truthy bearer token is taken, else there is none. |
| JwtStrategy.Validate | backend/src/auth/jwt.strategy.ts:17-19 | sub maps to userId, and role and nombre pass through, an absent nombre staying absent. |
| JwtStrategy.Autenticar | backend/src/auth/jwt.strategy.ts:8-20 | A request is accepted iff the extracted token verifies, and then its principal is the validated payload. |
| JwtStrategy.CookieInvalidaOculta | backend/src/auth/jwt.strategy.ts:9-12 | A present cookie that fails to verify is rejected; the header is not tried. |
| JwtStrategy.SinCookieUsaBearer | backend/src/auth/jwt.strategy.ts:9-12 | A missing or empty cookie falls back to the bearer header. |
| Middleware.TerminaEnAlguna | frontend/src/middleware.ts:9 | A text ends in a dot and one of the listed extensions. |
| Middleware.IsAsset | frontend/src/middleware.ts:9-11 | A path is an asset iff its lower-cased form ends in a dot and one of the fifteen extensions. |
| Middleware.IsPublic | frontend/src/middleware.ts:13-18 | A path is public iff it is /login or /favicon.ico, starts with /_next or /api, or is an asset. |
| Middleware.Decide | frontend/src/middleware.ts:4-33 | No token on a non-public path redirects to /login, and a token on /login redirects to /home. Every other case is Next. |
| Middleware.AssetSinMayusculas | frontend/src/middleware.ts:9 | The asset test ignores letter case. |
| Middleware.AssetSoloAlFinal | frontend/src/middleware.ts:9 | The extension must end the path: a trailing slash stops a path from being an asset. |
| Middleware.NoTerminaEnBarra | frontend/src/middleware.ts:9 | A text ending in '/' ends in none of the extensions. |
| Middleware.SinPuntoNoAsset | frontend/src/middleware.ts:9-11 | A path without a dot is never an asset. |
| Middleware.ConExtension | frontend/src/middleware.ts:9-11 | A path ending in a listed extension, in any case, is an asset. |
| Middleware.Publicas | frontend/src/middleware.ts:13-18 | /login, /favicon.ico and every path under /_next or /api are public; /home is not. |
| Middleware.SinBucle | frontend/src/middleware.ts:13-32 | Following a redirect with the same cookie is never redirected again. /login without a token and /home with one both pass. |
| Middleware.SoloPresencia | frontend/src/middleware.ts:6-26 | The decision depends only on whether the token is truthy, not on its value. |
| PaginasEventos.PorIdPosicion | frontend/src/app/eventos-pasados/page.tsx:63-67 | The id box matches iff its text occurs somewhere in the event's decimal id. |
| PaginasEventos.PorId | frontend/src/app/eventos-pasados/page.tsx:63-67 | The id box: the event's decimal id contains the typed text. |
| PaginasEventos.PorNombre | frontend/src/app/eventos-pasados/page.tsx:69-73 | The name box: the lower-cased name contains the lower-cased typed text. |
| PaginasEventos.Completo | frontend/src/app/eventos-pasados/page.tsx:120 | An edit form may be sent only with a non-empty name and start date. |
| PaginasEventos.PorNombreSinMayusculas | frontend/src/app/eventos-pasados/page.tsx:69-73 | The name match ignores letter case, both in the box and in the name. |
| PaginasEventos.PorIdPropio | frontend/src/app/active_event/page.tsx:76-80 | An event always matches its own full id. |
| EventosPasadosPage.FiltradosUnFiltro | frontend/src/app/eventos-pasados/page.tsx:60-89 | The boxes applied in turn equal one filter by all the non-empty boxes together. |
| EventosPasadosPage.PorFechaInicio | frontend/src/app/eventos-pasados/page.tsx:75-80 | The start-date box: the text of fecha_inicio before its first T is the typed date. |
| EventosPasadosPage.PorFechaFin | frontend/src/app/eventos-pasados/page.tsx:82-87 | The end-date box: the text of fecha_fin, or "" when absent, before its first T is the typed date. |
| EventosPasadosPage.Filtrados | frontend/src/app/eventos-pasados/page.tsx:60-89 | The list after each non-empty box has filtered it in turn, in the page's order. |
| EventosPasadosPage.FiltradosExacto | frontend/src/app/eventos-pasados/page.tsx:60-89 | The list on screen keeps the loaded order. It holds exactly the events that pass every non-empty box, each as often as loaded. |
| EventosPasadosPage.SinFiltrosTodo | frontend/src/app/eventos-pasados/page.tsx:63-87 | With every box empty the whole list shows. |
| EventosPasadosPage.SinFechaFinNoCoincide | frontend/src/app/eventos-pasados/page.tsx:82-87 | An event with no end date never passes a non-empty end-date box. |
| EventosPasadosPage.FechaInicioTimestamp | frontend/src/app/eventos-pasados/page.tsx:75-80 | A timestamp passes the start-date box with its date part. |
| EventosPasadosPage.SinEvento | frontend/src/app/eventos-pasados/page.tsx:138-139 | The list without an id keeps the order of the others and drops exactly that id. |
| EventosPasadosPage.ConActualizado | frontend/src/app/eventos-pasados/page.tsx:141-146 | Position by position, an entry with the edited id becomes the saved event; every other entry is unchanged. |
| EventosPasadosPage.ConActualizadoIds | frontend/src/app/eventos-pasados/page.tsx:141-146 | Replacing keeps the ids position by position and leaves no stale copy of the edited event. The saved event appears iff its id was in the list. |
| EventosPasadosPage.ConActualizadoIdempotente | frontend/src/app/eventos-pasados/page.tsx:141-146 | Replacing twice is replacing once. |
| EventosPasadosPage.SinEventoAusente | frontend/src/app/eventos-pasados/page.tsx:138-139 | Removing an id that is not present leaves the list unchanged. |
| EventosPasadosPage.Pagina.constructor | frontend/src/app/eventos-pasados/page.tsx:43-58 | The page starts with empty lists, empty boxes and no form open. |
| EventosPasadosPage.Pagina.Cargar | frontend/src/app/eventos-pasados/page.tsx:49-51 | A load sets both lists to the loaded data and changes nothing else. |
| EventosPasadosPage.Pagina.AplicarFiltros | frontend/src/app/eventos-pasados/page.tsx:60-90 | The list on screen becomes the filtered list for the current boxes; nothing else changes. |
| EventosPasadosPage.Pagina.LimpiarFiltros | frontend/src/app/eventos-pasados/page.tsx:92-98 | All four boxes are emptied and the full list shows, which is what the empty boxes select. |
| EventosPasadosPage.Pagina.GuardarEdicion | frontend/src/app/eventos-pasados/page.tsx:119-147 | Nothing is sent without a form, a name or a start date. After a save, an ACTIVO event leaves both lists; otherwise it replaces its entry in both. The form closes. |
| ActiveEventPage.FiltradosFalla | frontend/src/app/active_event/page.tsx:88-93 | Filtering fails iff the day box is filled and an event passing the id and name boxes has a date that cannot be rendered. |
| ActiveEventPage.PorDia | frontend/src/app/active_event/page.tsx:88-93 | The day box: the date part of the UTC rendering of fecha_inicio is the typed date. |
| ActiveEventPage.Filtrados | frontend/src/app/active_event/page.tsx:73-95 | The list after each non-empty box in turn, or no list when the day box meets a start date that cannot be rendered. |
| ActiveEventPage.PorTextoUnFiltro | frontend/src/app/active_event/page.tsx:76-86 | The id and name boxes in turn equal one filter by both. |
| ActiveEventPage.FiltradosUnFiltro | frontend/src/app/active_event/page.tsx:73-95 | A successful filtering is one filter by all the non-empty boxes. |
| ActiveEventPage.FiltradosExacto | frontend/src/app/active_event/page.tsx:73-95 | A successful result keeps the loaded order. It holds exactly the events that pass every non-empty box, each as often as loaded. |
| ActiveEventPage.SinDiaNoFalla | frontend/src/app/active_event/page.tsx:88 | With the day box empty, filtering never fails. |
| ActiveEventPage.SinFiltrosTodo | frontend/src/app/active_event/page.tsx:76-93 | With every box empty the whole list shows. |
| ActiveEventPage.FormatearFechaParaInput | frontend/src/app/active_event/page.tsx:184-187 | Empty gives empty. Otherwise the result is the prefix before the first 'T', or the whole text when there is none. |
| ActiveEventPage.FormatearFechaTimestamp | frontend/src/app/active_event/page.tsx:184-187 | A timestamp formats as its date, and a date formats as itself. |
| ActiveEventPage.FormatearFechaIdempotente | frontend/src/app/active_event/page.tsx:184-187 | Formatting twice is formatting once. |
| ActiveEventPage.Pagina.constructor | frontend/src/app/active_event/page.tsx:44-51 | The page starts empty, with the create form holding empty fields and estatus ACTIVO. |
| ActiveEventPage.Pagina.Cargar | frontend/src/app/active_event/page.tsx:54-66 | A load sets both lists to the loaded data and changes nothing else. |
| ActiveEventPage.Pagina.AplicarFiltros | frontend/src/app/active_event/page.tsx:73-96 | On success the list on screen is the filtered list. When the date conversion throws, the list is unchanged. |
| ActiveEventPage.Pagina.LimpiarFiltros | frontend/src/app/active_event/page.tsx:99-104 | The boxes are emptied and the full list shows, which is what the empty boxes select. |
| ActiveEventPage.Pagina.CrearEvento | frontend/src/app/active_event/page.tsx:107-137 | Nothing is sent without a name or start date. After a success the form closes and resets to empty fields with estatus ACTIVO. |
| ActiveEventPage.Pagina.GuardarEdicion | frontend/src/app/active_event/page.tsx:159-181 | Nothing is sent without a form, a name or a start date. After a success the form closes. |
| Text.LowerUpper | frontend/src/app/eventos-pasados/page.tsx:71 | Lower-casing after upper-casing equals lower-casing. |
| Text.ContainsIff | frontend/src/app/eventos-pasados/page.tsx:65 | A substring test holds iff the text occurs at some position. |
| Text.DigitsValueNatToString | backend/src/evidencias/evidencias.controller.ts:97 | The decimal text of a natural number reads back as that number. |
| Text.ParseIntToString | backend/src/evidencias/evidencias.controller.ts:97 | Base-10 parsing of an integer's decimal text gives that integer back. |
| Text.ParseInt | backend/src/evidencias/evidencias.controller.ts:97 | Base-10 parseInt: leading white space, an optional sign, the longest run of digits; no digit at all is NaN. |
| Text.BeforeT | frontend/src/app/eventos-pasados/page.tsx:77 | The result is a prefix with no 'T', followed in the input by a 'T' when shorter. |
| Text.BeforeTFecha | frontend/src/app/eventos-pasados/page.tsx:77 | The date part of "date T time" is the date. |
| Text.StrLeTotal | backend/src/corporaciones/corporaciones.service.ts:28 | The ordering by name is total. |
| Text.StrLeTrans | backend/src/corporaciones/corporaciones.service.ts:28 | The ordering by name is transitive. |

## Left out

- Persistence: TypeORM, the SQL and the database are not modelled; tables are maps.
  - Of the database's constraints the primary key and the unique columns are modelled (corporaciones.entity.ts:8, motivos.entity.ts:8, usuario-admin.entity.ts:11): a write that gives a row a key or a name or email another row holds fails with `QueryFailed("23505")`. The creates of corporations, motives and users refuse a taken name or email before writing, and every update that would duplicate one gets 23505, so these creates and updates keep names and emails unique. Foreign keys are not enforced.
  - The relations a query loads (corporacion, evento, evidencias, usuarioSubio, …) are not modelled; rows carry only their columns.
  - The error TypeORM raises for an update with no columns is not modelled.
  - ILIKE and LIKE wildcard characters inside the search text are not modelled; the search text is matched literally.
  - The query string of filtrar is text, and the database converts it. The model takes the numeric filters already converted, with an absent or empty filter as `None`.
- Foreign keys: "referenced by incidents" in the corporation delete is the predicate `Referenciada`. It stands for Postgres error 23503, and other database errors are not modelled.
- Cascades: the evidence rows of a deleted incident are not modelled.
- Crypto: bcrypt hashing and comparison are function parameters (`hashear`, `compare`). JWT signing returns the request the signer receives, and verification is a parameter (`verificar`). Passport's header parsing is not modelled.
- Guards: the role guard and the JWT guard are not part of this model. Each guarded route requires the caller's role to be in its `@Roles` list: `RolAdmitido(...)` on the incident routes, ADMIN or CAPTURISTA on the evidence upload. The optional-auth guard is left out.
- File I/O: reading, deleting and downloading files is left out, so `descargarArchivo` and evidence findOne are not modelled. Disk storage and its random file names are left out; the stored path is a parameter.
- Clock: `new Date()` for fecha_cierre and the database's upload time are parameters (`ahora`).
- active_event dates: the parameter `iso` stands for rendering a date as ISO text, with its timezone effects; `None` stands for the RangeError it throws.
- Floating point: `porcentaje_con_evidencias` in getEstadisticasConEvidencias is left out, along with its `toFixed`.
- Text: letter case is mapped for ASCII letters only. JavaScript's full Unicode case mapping is not modelled.
- Collation: names are ordered by code point; the database's collation is not modelled.
- Number precision: integers are unbounded, so parseInt and ids beyond 2^53 are exact in the model.
- Paths: Extname handles the plain POSIX cases. Trailing slashes, which Node's path module strips first, are not modelled.
- React: rendering, hooks, alerts and modals are left out.
- Network: each request is a parameter of the page method that sends it, either the response or `ok`.
- Reloading after save: the reload that follows a save, create or delete is left out. The eventos-pasados page reloads after its local merge, and the active_event page after create and edit.
- eliminarEvento and formatearFechaParaTabla on both pages are not modelled; they hold no rule beyond a request and display formatting.
- Next.js: the guard's `matcher` configuration is left out. A redirect keeps the rest of the URL, which the model does not represent.
- Guard pattern: the middleware's case-insensitive extension pattern is ASCII-only, so ASCII folding in the model matches it exactly.
- Wiring: the *.module.ts files, app.module.ts and the Nest configuration are left out.
- eventos.controller.ts calls findInactivos, which the event service does not define; it is not modelled.
- The motives page calls a toggle route that the motive controller does not provide; it is not modelled.
- EvidenciasService.EvidenciasTable.Create: the manual `POST /evidencias` route passes its body straight to create, and nothing strips fields the DTO does not declare. The model covers a body with the four declared fields only; a body that also carries id_evidencia or fecha_subida, which save would write, is not modelled.
- Catalogs: findAll and findOne of the catalog services outside the listed operations are left out; FindOne is modelled where other operations use it.
- Concurrency: requests are sequential; races between them are not modelled.
- JwtStrategy.ExtraerToken takes only the first truthy token. The strategy's comment calls the bearer header a fallback, but passport-jwt verifies only the token it extracts, so an invalid cookie rejects the request and the header is never tried (`CookieInvalidaOculta`).
- UsuarioAdminService.UsuariosTable.Create returns the saved row, hash included, as the code does. Only findAll, findOne, update and toggleEstatus hide the hash.
- IncidenciasService.IncidenciasTable.GetEstadisticasConEvidencias: its contract states only the count identity. The partition of the groups is stated on the function, by `EstadisticasParticion`.
- Ties: the order of rows with equal sort keys is not stated.
- Dates and times: the `date` and `time` columns (incidencias.entity.ts:16-20, evento.entity.ts:11-15) are strings in the model, ordered by code point. That agrees with chronological order only for canonical ISO text; that the database rejects a malformed date is not modelled.
- IncidenciasService.IncidenciasTable.Create and EventosService.EventosTable.Create: when the body names a stored key, the model returns the whole stored row after the write; the library returns the saved object, which holds only the body's columns and the status.
- CorporacionesService.CorporacionesTable.Update, MotivosService.MotivosTable.Update and EventosService.EventosTable.Update: a body that moves the key of a corporation, motive or event that incidents refer to fails in the database with the foreign-key error 23503; the model moves the row and leaves the incidents as they were.
- IncidenciasService.IncidenciasTable.Update: the evidences' foreign key is `ON UPDATE CASCADE` (evidencias.entity.ts:26), so moving the key of an incident re-keys its evidences; that cascade is not modelled, and the evidences keep the old key. The outcome of the call, NotFound for the old id, is the same.
- EventosPasadosPage.Pagina.Cargar: the page loads its list from `GET /eventos/inactivos` (eventos-pasados/page.tsx:49-51), whose controller calls `findInactivos` (eventos.controller.ts:27-29), a method the event service does not define. No list that route could answer is modelled; the model takes the loaded list as given.
- ActiveEventPage.Pagina.Cargar: likewise, `GET /eventos/activos` answers `{ ok: true, data }` (eventos.controller.ts:21-23, active_event/page.tsx:57-59). The model takes the list already unwrapped.
- EventosPasadosPage.Pagina.GuardarEdicion: `PUT /eventos/:id` answers `{ ok: true, data }` (eventos.controller.ts:51), so the page's `actualizado.estatus` and `actualizado.id_evento` are undefined. As written, the merge at eventos-pasados/page.tsx:137-147 removes nothing and replaces nothing before the reload. The model's `respuesta` is the unwrapped event, so its merge is the one the page evidently intends.
