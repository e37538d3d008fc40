/** What the two event pages share: the search-box tests they apply to their
    lists (the id box matches any event whose decimal id contains the typed
    text, the name box matches names that contain it without regard to ASCII
    case) and the check of the edit form before it is sent. */
module PaginasEventos {
  import opened Entities
  import opened Text

  /** The id box: the decimal text of the id contains the typed text. */
  function PorId(filtro: string): Evento -> bool
  {
    (e: Evento) => Contains(IntToString(e.id_evento), filtro)
  }

  /** The name box: the lower-cased name contains the lower-cased typed text. */
  function PorNombre(filtro: string): Evento -> bool
  {
    (e: Evento) => Contains(Lower(e.nombre_evento), Lower(filtro))
  }

  /** The id box matches exactly the events whose decimal id has the typed
      text at some position. */
  lemma PorIdPosicion(filtro: string, e: Evento)
    ensures PorId(filtro)(e) <==> exists i :: OccursAt(IntToString(e.id_evento), filtro, i)
  {
    ContainsIff(IntToString(e.id_evento), filtro);
  }

  /** The name box ignores ASCII case on both sides. */
  lemma PorNombreSinMayusculas(filtro: string, e: Evento)
    ensures PorNombre(Upper(filtro))(e) == PorNombre(filtro)(e)
    ensures PorNombre(filtro)(e.(nombre_evento := Upper(e.nombre_evento))) == PorNombre(filtro)(e)
  {
    LowerUpper(filtro);
    LowerUpper(e.nombre_evento);
  }

  /** The typed text of a whole id finds that event. */
  lemma PorIdPropio(e: Evento)
    ensures PorId(IntToString(e.id_evento))(e)
  {
    assert IsPrefix(IntToString(e.id_evento), IntToString(e.id_evento));
  }

  /** An edit form may be sent only with a name and a start date. */
  predicate Completo(e: Evento)
  {
    e.nombre_evento != "" && e.fecha_inicio != ""
  }
}
