/** The persisted records of the backend, one datatype per table. Column
    names are those of the schema. Dates of type `date` are their ISO text
    "YYYY-MM-DD", times of type `time` their text "HH:MM:SS", and timestamps
    a number of milliseconds. A nullable column is an `Option`. */
module Entities {
  import opened Common

  /** Default `estatus` of a new incident row. */
  const ESTATUS_ABIERTA := "ABIERTA"
  const ESTATUS_CERRADA := "CERRADA"
  /** Default `estatus` of corporations, motives, events and users. */
  const ACTIVO := "ACTIVO"
  const INACTIVO := "INACTIVO"

  /** The status a toggle writes: 'ACTIVO' becomes 'INACTIVO' and any other
      value becomes 'ACTIVO'. */
  function Alternado(estatus: string): (r: string)
    ensures estatus == ACTIVO ==> r == INACTIVO
    ensures estatus != ACTIVO ==> r == ACTIVO
  {
    if estatus == ACTIVO then INACTIVO else ACTIVO
  }

  /** Toggling twice restores ACTIVO and INACTIVO, and turns any other
      value into INACTIVO. */
  lemma AlternarDosVeces(estatus: string)
    ensures estatus == ACTIVO || estatus == INACTIVO ==> Alternado(Alternado(estatus)) == estatus
    ensures estatus != ACTIVO ==> Alternado(Alternado(estatus)) == INACTIVO
  {
  }

  const ROL_ADMIN := "ADMIN"
  const ROL_CAPTURISTA := "CAPTURISTA"

  datatype Incidencia = Incidencia(
    id_incidencia: int,
    id_evento: int,
    fecha: string,
    hora: string,
    id_corporacion: int,
    id_motivo: int,
    ubicacion: string,
    descripcion: string,
    usuario_crea: int,
    usuario_cierra: Option<int>,
    fecha_cierre: Option<int>,
    estatus: string)

  datatype Evidencia = Evidencia(
    id_evidencia: int,
    id_incidencia: int,
    usuario_subio: int,
    ruta_archivo: string,
    tipo_archivo: string,
    fecha_subida: int)

  datatype Corporacion = Corporacion(
    id_corporacion: int,
    nombre_corporacion: string,
    estatus: string)

  datatype Motivo = Motivo(
    id_motivo: int,
    nombre_motivo: string,
    estatus: string)

  datatype Evento = Evento(
    id_evento: int,
    nombre_evento: string,
    fecha_inicio: string,
    fecha_fin: Option<string>,
    ubicacion: Option<string>,
    descripcion: Option<string>,
    estatus: string)

  datatype Usuario = Usuario(
    idUsuario: int,
    nombre: string,
    correo: string,
    passwordHash: string,
    rol: string,
    estatus: string)
}
