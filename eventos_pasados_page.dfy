/** The page of past (inactive) events: the list loaded from the backend,
    the list on screen, four search boxes, and the event being edited. */
module EventosPasadosPage {
  import opened Common
  import opened Entities
  import opened Text
  import opened Lists
  import opened PaginasEventos

  /** The four search boxes; an empty box imposes nothing. */
  datatype Filtros = Filtros(id: string, evento: string, fechaInicio: string, fechaFin: string)

  const SIN_FILTROS := Filtros("", "", "", "")

  /** The start-date box: the date part of `fecha_inicio` is the typed date. */
  function PorFechaInicio(fecha: string): Evento -> bool
  {
    (e: Evento) => BeforeT(e.fecha_inicio) == fecha
  }

  /** The end-date box: the date part of `fecha_fin`, read as "" when the
      event has none, is the typed date. */
  function PorFechaFin(fecha: string): Evento -> bool
  {
    (e: Evento) => BeforeT(OrStr(e.fecha_fin, "")) == fecha
  }

  /** The list after each non-empty box has filtered it in turn. */
  function Filtrados(eventos: seq<Evento>, f: Filtros): seq<Evento>
  {
    var porId := FilterIf(f.id != "", eventos, PorId(f.id));
    var porNombre := FilterIf(f.evento != "", porId, PorNombre(f.evento));
    var porInicio := FilterIf(f.fechaInicio != "", porNombre, PorFechaInicio(f.fechaInicio));
    FilterIf(f.fechaFin != "", porInicio, PorFechaFin(f.fechaFin))
  }

  /** An event passes every box that is not empty. */
  predicate Cumple(f: Filtros, e: Evento)
  {
    && (f.id != "" ==> PorId(f.id)(e))
    && (f.evento != "" ==> PorNombre(f.evento)(e))
    && (f.fechaInicio != "" ==> PorFechaInicio(f.fechaInicio)(e))
    && (f.fechaFin != "" ==> PorFechaFin(f.fechaFin)(e))
  }

  function CumpleHastaId(f: Filtros): Evento -> bool
  {
    (e: Evento) => f.id != "" ==> PorId(f.id)(e)
  }

  function CumpleHastaNombre(f: Filtros): Evento -> bool
  {
    (e: Evento) => CumpleHastaId(f)(e) && (f.evento != "" ==> PorNombre(f.evento)(e))
  }

  function CumpleHastaInicio(f: Filtros): Evento -> bool
  {
    (e: Evento) => CumpleHastaNombre(f)(e) && (f.fechaInicio != "" ==> PorFechaInicio(f.fechaInicio)(e))
  }

  function CumpleTodos(f: Filtros): Evento -> bool
  {
    (e: Evento) => Cumple(f, e)
  }

  /** The boxes applied one after another act as a single filter by all of
      them together. */
  lemma FiltradosUnFiltro(eventos: seq<Evento>, f: Filtros)
    ensures Filtrados(eventos, f) == Filter(eventos, CumpleTodos(f))
  {
    FilterIfFilter(f.id != "", eventos, PorId(f.id), CumpleHastaId(f));
    var porId := FilterIf(f.id != "", eventos, PorId(f.id));
    FilterIfAfter(f.evento != "", eventos, CumpleHastaId(f), PorNombre(f.evento), CumpleHastaNombre(f));
    var porNombre := FilterIf(f.evento != "", porId, PorNombre(f.evento));
    FilterIfAfter(f.fechaInicio != "", eventos, CumpleHastaNombre(f), PorFechaInicio(f.fechaInicio), CumpleHastaInicio(f));
    FilterIfAfter(f.fechaFin != "", eventos, CumpleHastaInicio(f), PorFechaFin(f.fechaFin), CumpleTodos(f));
  }

  /** The filtered list keeps the order of the loaded list, holds exactly the
      events that pass every non-empty box, and holds each of those as often
      as the loaded list does. */
  lemma FiltradosExacto(eventos: seq<Evento>, f: Filtros)
    ensures IsSubsequence(Filtrados(eventos, f), eventos)
    ensures forall e :: e in Filtrados(eventos, f) <==> e in eventos && Cumple(f, e)
    ensures forall e :: Cumple(f, e) ==> multiset(Filtrados(eventos, f))[e] == multiset(eventos)[e]
  {
    FiltradosUnFiltro(eventos, f);
    forall e | Cumple(f, e)
      ensures multiset(Filtrados(eventos, f))[e] == multiset(eventos)[e]
    {
      FilterCount(eventos, CumpleTodos(f), e);
    }
  }

  /** With every box empty the whole loaded list is shown. */
  lemma SinFiltrosTodo(eventos: seq<Evento>)
    ensures Filtrados(eventos, SIN_FILTROS) == eventos
  {
  }

  /** An event without an end date never passes a non-empty end-date box. */
  lemma SinFechaFinNoCoincide(e: Evento, fecha: string)
    requires e.fecha_fin.None? || e.fecha_fin == Some("")
    requires fecha != ""
    ensures !PorFechaFin(fecha)(e)
  {
  }

  /** An ISO timestamp passes the start-date box with its date part. */
  lemma FechaInicioTimestamp(e: Evento, dia: string, hora: string)
    requires 'T' !in dia
    requires e.fecha_inicio == dia + "T" + hora
    ensures PorFechaInicio(dia)(e)
  {
    BeforeTFecha(dia, hora);
  }

  function OtroId(id: int): Evento -> bool
  {
    (e: Evento) => e.id_evento != id
  }

  /** A list without the event `id`, in the same order. */
  function SinEvento(s: seq<Evento>, id: int): (r: seq<Evento>)
    ensures IsSubsequence(r, s)
    ensures forall e :: e in r <==> e in s && e.id_evento != id
  {
    Filter(s, OtroId(id))
  }

  /** A list where the entries with the id of `act` are `act`. */
  function ConActualizado(s: seq<Evento>, act: Evento): (r: seq<Evento>)
    ensures |r| == |s|
    ensures forall i :: 0 <= i < |s| && s[i].id_evento == act.id_evento ==> r[i] == act
    ensures forall i :: 0 <= i < |s| && s[i].id_evento != act.id_evento ==> r[i] == s[i]
  {
    if s == [] then []
    else [if s[0].id_evento == act.id_evento then act else s[0]] + ConActualizado(s[1..], act)
  }

  /** Replacing keeps the list's ids, position by position, and leaves no
      stale copy of the edited event. */
  lemma ConActualizadoIds(s: seq<Evento>, act: Evento)
    ensures forall i :: 0 <= i < |s| ==> ConActualizado(s, act)[i].id_evento == s[i].id_evento
    ensures forall e :: e in ConActualizado(s, act) && e.id_evento == act.id_evento ==> e == act
    ensures act in ConActualizado(s, act) <==> exists i :: 0 <= i < |s| && s[i].id_evento == act.id_evento
  {
    var r := ConActualizado(s, act);
    if act in r {
      var i :| 0 <= i < |r| && r[i] == act;
      assert s[i].id_evento == act.id_evento;
    }
  }

  /** Replacing twice with the same event is replacing once. */
  lemma ConActualizadoIdempotente(s: seq<Evento>, act: Evento)
    ensures ConActualizado(ConActualizado(s, act), act) == ConActualizado(s, act)
  {
  }

  /** Removing an event that is not in the list leaves it unchanged. */
  lemma SinEventoAusente(s: seq<Evento>, id: int)
    requires forall e :: e in s ==> e.id_evento != id
    ensures SinEvento(s, id) == s
  {
    FilterAll(s, OtroId(id));
  }

  class Pagina {
    /** The events loaded from the backend. */
    var eventos: seq<Evento>
    /** The events on screen. */
    var eventosFiltrados: seq<Evento>
    var filtroId: string
    var filtroEvento: string
    var filtroFechaInicio: string
    var filtroFechaFin: string
    /** The event in the edit form, if one is open. */
    var editando: Option<Evento>

    function FiltrosActuales(): Filtros
      reads this
    {
      Filtros(filtroId, filtroEvento, filtroFechaInicio, filtroFechaFin)
    }

    constructor ()
      ensures eventos == [] && eventosFiltrados == []
      ensures FiltrosActuales() == SIN_FILTROS && editando == None
    {
      eventos := [];
      eventosFiltrados := [];
      filtroId := "";
      filtroEvento := "";
      filtroFechaInicio := "";
      filtroFechaFin := "";
      editando := None;
    }

    /** A successful load shows the loaded list unfiltered. */
    method Cargar(data: seq<Evento>)
      modifies this
      ensures eventos == data && eventosFiltrados == data
      ensures FiltrosActuales() == old(FiltrosActuales()) && editando == old(editando)
    {
      eventos := data;
      eventosFiltrados := data;
    }

    /** Filters the loaded list through each non-empty box in turn. */
    method AplicarFiltros()
      modifies this
      ensures eventosFiltrados == Filtrados(eventos, FiltrosActuales())
      ensures eventos == old(eventos) && FiltrosActuales() == old(FiltrosActuales())
      ensures editando == old(editando)
    {
      var resultado := eventos;
      if filtroId != "" {
        resultado := Filter(resultado, PorId(filtroId));
      }
      if filtroEvento != "" {
        resultado := Filter(resultado, PorNombre(filtroEvento));
      }
      if filtroFechaInicio != "" {
        resultado := Filter(resultado, PorFechaInicio(filtroFechaInicio));
      }
      if filtroFechaFin != "" {
        resultado := Filter(resultado, PorFechaFin(filtroFechaFin));
      }
      eventosFiltrados := resultado;
    }

    /** Empties every box and shows the whole loaded list, which is what
        filtering with empty boxes shows. */
    method LimpiarFiltros()
      modifies this
      ensures FiltrosActuales() == SIN_FILTROS
      ensures eventosFiltrados == eventos && eventos == old(eventos)
      ensures eventosFiltrados == Filtrados(eventos, FiltrosActuales())
      ensures editando == old(editando)
    {
      filtroId := "";
      filtroEvento := "";
      filtroFechaInicio := "";
      filtroFechaFin := "";
      eventosFiltrados := eventos;
      SinFiltrosTodo(eventos);
    }

    /** Saves the edit form. `respuesta` is the event the backend sends back
        when the request succeeds, `None` when it fails. Without a form, a
        name or a start date nothing is sent. An event that comes back
        active leaves both lists; otherwise it replaces its old entry. */
    method GuardarEdicion(respuesta: Option<Evento>) returns (enviado: bool)
      modifies this
      ensures enviado <==> old(editando).Some? && Completo(old(editando).value)
      ensures !enviado || respuesta.None? ==>
        eventos == old(eventos) && eventosFiltrados == old(eventosFiltrados) && editando == old(editando)
      ensures enviado && respuesta.Some? && respuesta.value.estatus == ACTIVO ==>
        && eventos == SinEvento(old(eventos), respuesta.value.id_evento)
        && eventosFiltrados == SinEvento(old(eventosFiltrados), respuesta.value.id_evento)
      ensures enviado && respuesta.Some? && respuesta.value.estatus != ACTIVO ==>
        && eventos == ConActualizado(old(eventos), respuesta.value)
        && eventosFiltrados == ConActualizado(old(eventosFiltrados), respuesta.value)
      ensures enviado && respuesta.Some? ==> editando == None
      ensures FiltrosActuales() == old(FiltrosActuales())
    {
      if editando.None? || !Completo(editando.value) {
        return false;
      }
      enviado := true;
      if respuesta.Some? {
        var actualizado := respuesta.value;
        editando := None;
        if actualizado.estatus == ACTIVO {
          eventos := SinEvento(eventos, actualizado.id_evento);
          eventosFiltrados := SinEvento(eventosFiltrados, actualizado.id_evento);
        } else {
          eventos := ConActualizado(eventos, actualizado);
          eventosFiltrados := ConActualizado(eventosFiltrados, actualizado);
        }
      }
    }
  }
}
