/** The page of active events: the list loaded from the backend, the list on
    screen, three search boxes, the form for a new event and the event being
    edited. The date box compares the calendar day of the start date as the
    browser renders it in UTC; that rendering (which depends on the time
    zone, and fails on a text that is not a date) is the parameter `iso`. */
module ActiveEventPage {
  import opened Common
  import opened Entities
  import opened Text
  import opened Lists
  import opened PaginasEventos

  /** The three search boxes; an empty box imposes nothing. */
  datatype Filtros = Filtros(id: string, evento: string, fecha: string)

  const SIN_FILTROS := Filtros("", "", "")

  /** The new-event form: every field is text as typed. */
  datatype Borrador = Borrador(
    nombre_evento: string,
    fecha_inicio: string,
    fecha_fin: string,
    ubicacion: string,
    descripcion: string,
    estatus: string)

  /** The form as the page shows it first and after every creation. */
  const BORRADOR_VACIO := Borrador("", "", "", "", "", ACTIVO)

  /** The day box: the date part of the UTC rendering of `fecha_inicio` is
      the typed date. `iso(t)` is `None` when `t` is not a valid date. */
  function PorDia(fecha: string, iso: string -> Option<string>): Evento -> bool
  {
    (e: Evento) => iso(e.fecha_inicio).Some? && BeforeT(iso(e.fecha_inicio).value) == fecha
  }

  /** Some event of `s` has a start date the browser cannot render. */
  predicate FechaInvalida(s: seq<Evento>, iso: string -> Option<string>)
  {
    exists e :: e in s && iso(e.fecha_inicio).None?
  }

  /** The list after each non-empty box has filtered it in turn, or `None`
      when the day box meets a date that cannot be rendered, which aborts
      the filtering with an exception. */
  function Filtrados(eventos: seq<Evento>, f: Filtros, iso: string -> Option<string>): Option<seq<Evento>>
  {
    var porNombre := PorTexto(eventos, f);
    if f.fecha == "" then Some(porNombre)
    else if FechaInvalida(porNombre, iso) then None
    else Some(Filter(porNombre, PorDia(f.fecha, iso)))
  }

  /** The list after the id box and then the name box. */
  function PorTexto(eventos: seq<Evento>, f: Filtros): seq<Evento>
  {
    FilterIf(f.evento != "", FilterIf(f.id != "", eventos, PorId(f.id)), PorNombre(f.evento))
  }

  /** An event passes every box that is not empty. */
  predicate Cumple(f: Filtros, iso: string -> Option<string>, e: Evento)
  {
    && (f.id != "" ==> PorId(f.id)(e))
    && (f.evento != "" ==> PorNombre(f.evento)(e))
    && (f.fecha != "" ==> PorDia(f.fecha, iso)(e))
  }

  function CumpleTexto(f: Filtros): Evento -> bool
  {
    (e: Evento) => (f.id != "" ==> PorId(f.id)(e)) && (f.evento != "" ==> PorNombre(f.evento)(e))
  }

  function CumpleTodos(f: Filtros, iso: string -> Option<string>): Evento -> bool
  {
    (e: Evento) => Cumple(f, iso, e)
  }

  /** The id and name boxes act as one filter by both together. */
  lemma PorTextoUnFiltro(eventos: seq<Evento>, f: Filtros)
    ensures PorTexto(eventos, f) == Filter(eventos, CumpleTexto(f))
  {
    var soloId := (e: Evento) => f.id != "" ==> PorId(f.id)(e);
    FilterIfFilter(f.id != "", eventos, PorId(f.id), soloId);
    FilterIfAfter(f.evento != "", eventos, soloId, PorNombre(f.evento), CumpleTexto(f));
  }

  /** Filtering fails exactly when the day box is filled and an event that
      passes the id and name boxes has a date that cannot be rendered. */
  lemma FiltradosFalla(eventos: seq<Evento>, f: Filtros, iso: string -> Option<string>)
    ensures Filtrados(eventos, f, iso).None? <==>
      f.fecha != "" && exists e :: e in eventos && CumpleTexto(f)(e) && iso(e.fecha_inicio).None?
  {
    PorTextoUnFiltro(eventos, f);
    var porTexto := PorTexto(eventos, f);
    if exists e :: e in eventos && CumpleTexto(f)(e) && iso(e.fecha_inicio).None? {
      var e :| e in eventos && CumpleTexto(f)(e) && iso(e.fecha_inicio).None?;
      assert e in porTexto;
    }
  }

  /** A successful filtering is one filter by all the non-empty boxes. */
  lemma FiltradosUnFiltro(eventos: seq<Evento>, f: Filtros, iso: string -> Option<string>)
    requires Filtrados(eventos, f, iso).Some?
    ensures Filtrados(eventos, f, iso).value == Filter(eventos, CumpleTodos(f, iso))
  {
    PorTextoUnFiltro(eventos, f);
    if f.fecha == "" {
      FilterExt(eventos, CumpleTexto(f), CumpleTodos(f, iso));
    } else {
      FilterIfAfter(true, eventos, CumpleTexto(f), PorDia(f.fecha, iso), CumpleTodos(f, iso));
    }
  }

  /** When filtering succeeds, the result keeps the order of the loaded
      list and holds exactly the events that pass every non-empty box, each
      as often as the loaded list does. */
  lemma FiltradosExacto(eventos: seq<Evento>, f: Filtros, iso: string -> Option<string>, r: seq<Evento>)
    requires Filtrados(eventos, f, iso) == Some(r)
    ensures IsSubsequence(r, eventos)
    ensures forall e :: e in r <==> e in eventos && Cumple(f, iso, e)
    ensures forall e :: Cumple(f, iso, e) ==> multiset(r)[e] == multiset(eventos)[e]
  {
    FiltradosUnFiltro(eventos, f, iso);
    forall e | Cumple(f, iso, e)
      ensures multiset(r)[e] == multiset(eventos)[e]
    {
      FilterCount(eventos, CumpleTodos(f, iso), e);
    }
  }

  /** Without a day in the box the filtering never fails. */
  lemma SinDiaNoFalla(eventos: seq<Evento>, f: Filtros, iso: string -> Option<string>)
    requires f.fecha == ""
    ensures Filtrados(eventos, f, iso).Some?
  {
  }

  /** With every box empty the whole loaded list is shown. */
  lemma SinFiltrosTodo(eventos: seq<Evento>, iso: string -> Option<string>)
    ensures Filtrados(eventos, SIN_FILTROS, iso) == Some(eventos)
  {
  }

  /** The value a date input shows for a stored date: empty stays empty,
      anything else is cut at its first 'T'. */
  function FormatearFechaParaInput(fecha: string): (r: string)
    ensures fecha == "" ==> r == ""
    ensures IsPrefix(r, fecha) && 'T' !in r
    ensures |r| < |fecha| ==> fecha[|r|] == 'T'
  {
    if fecha == "" then "" else BeforeT(fecha)
  }

  /** A timestamp shows as its date, and a date shows as itself. */
  lemma FormatearFechaTimestamp(dia: string, hora: string)
    requires 'T' !in dia
    ensures FormatearFechaParaInput(dia + "T" + hora) == dia
    ensures FormatearFechaParaInput(dia) == dia
  {
    BeforeTFecha(dia, hora);
    BeforeTSinT(dia);
  }

  /** Formatting an already formatted date changes nothing. */
  lemma FormatearFechaIdempotente(fecha: string)
    ensures FormatearFechaParaInput(FormatearFechaParaInput(fecha)) == FormatearFechaParaInput(fecha)
  {
    BeforeTSinT(FormatearFechaParaInput(fecha));
  }

  class Pagina {
    /** The events loaded from the backend. */
    var eventos: seq<Evento>
    /** The events on screen. */
    var eventosFiltrados: seq<Evento>
    var filtroId: string
    var filtroEvento: string
    var filtroFecha: string
    /** The event in the edit form, if one is open. */
    var editando: Option<Evento>
    /** Whether the new-event form is open. */
    var creando: bool
    var nuevoEvento: Borrador

    function FiltrosActuales(): Filtros
      reads this
    {
      Filtros(filtroId, filtroEvento, filtroFecha)
    }

    constructor ()
      ensures eventos == [] && eventosFiltrados == []
      ensures FiltrosActuales() == SIN_FILTROS && editando == None
      ensures !creando && nuevoEvento == BORRADOR_VACIO
    {
      eventos := [];
      eventosFiltrados := [];
      filtroId := "";
      filtroEvento := "";
      filtroFecha := "";
      editando := None;
      creando := false;
      nuevoEvento := BORRADOR_VACIO;
    }

    /** A successful load shows the loaded list unfiltered. */
    method Cargar(data: seq<Evento>)
      modifies this
      ensures eventos == data && eventosFiltrados == data
      ensures FiltrosActuales() == old(FiltrosActuales()) && editando == old(editando)
      ensures creando == old(creando) && nuevoEvento == old(nuevoEvento)
    {
      eventos := data;
      eventosFiltrados := data;
    }

    /** Filters the loaded list through each non-empty box in turn; `falla`
        reports the exception of the day box, after which the list on
        screen stays as it was. */
    method AplicarFiltros(iso: string -> Option<string>) returns (falla: bool)
      modifies this
      ensures falla <==> Filtrados(eventos, FiltrosActuales(), iso).None?
      ensures !falla ==> eventosFiltrados == Filtrados(eventos, FiltrosActuales(), iso).value
      ensures falla ==> eventosFiltrados == old(eventosFiltrados)
      ensures eventos == old(eventos) && FiltrosActuales() == old(FiltrosActuales())
      ensures editando == old(editando) && creando == old(creando) && nuevoEvento == old(nuevoEvento)
    {
      var resultado := eventos;
      if filtroId != "" {
        resultado := Filter(resultado, PorId(filtroId));
      }
      if filtroEvento != "" {
        resultado := Filter(resultado, PorNombre(filtroEvento));
      }
      if filtroFecha != "" {
        if FechaInvalida(resultado, iso) {
          return true;
        }
        resultado := Filter(resultado, PorDia(filtroFecha, iso));
      }
      eventosFiltrados := resultado;
      falla := false;
    }

    /** Empties every box and shows the whole loaded list, which is what
        filtering with empty boxes shows. */
    method LimpiarFiltros()
      modifies this
      ensures FiltrosActuales() == SIN_FILTROS
      ensures eventosFiltrados == eventos && eventos == old(eventos)
      ensures forall iso :: Filtrados(eventos, FiltrosActuales(), iso) == Some(eventosFiltrados)
      ensures editando == old(editando) && creando == old(creando) && nuevoEvento == old(nuevoEvento)
    {
      filtroId := "";
      filtroEvento := "";
      filtroFecha := "";
      eventosFiltrados := eventos;
      forall iso: string -> Option<string>
        ensures Filtrados(eventos, SIN_FILTROS, iso) == Some(eventos)
      {
        SinFiltrosTodo(eventos, iso);
      }
    }

    /** Sends the new-event form. `ok` is whether the backend accepted it.
        Without a name or a start date nothing is sent; after an accepted
        creation the form closes and is reset. */
    method CrearEvento(ok: bool) returns (enviado: bool)
      modifies this
      ensures enviado <==> old(nuevoEvento).nombre_evento != "" && old(nuevoEvento).fecha_inicio != ""
      ensures !enviado || !ok ==> creando == old(creando) && nuevoEvento == old(nuevoEvento)
      ensures enviado && ok ==> !creando && nuevoEvento == BORRADOR_VACIO
      ensures eventos == old(eventos) && eventosFiltrados == old(eventosFiltrados)
      ensures FiltrosActuales() == old(FiltrosActuales()) && editando == old(editando)
    {
      if nuevoEvento.nombre_evento == "" || nuevoEvento.fecha_inicio == "" {
        return false;
      }
      enviado := true;
      if ok {
        creando := false;
        nuevoEvento := BORRADOR_VACIO;
      }
    }

    /** Sends the edit form. `ok` is whether the backend accepted it. Without
        a form, a name or a start date nothing is sent; an accepted edit
        closes the form. */
    method GuardarEdicion(ok: bool) returns (enviado: bool)
      modifies this
      ensures enviado <==> old(editando).Some? && Completo(old(editando).value)
      ensures enviado && ok ==> editando == None
      ensures !enviado || !ok ==> editando == old(editando)
      ensures eventos == old(eventos) && eventosFiltrados == old(eventosFiltrados)
      ensures FiltrosActuales() == old(FiltrosActuales())
      ensures creando == old(creando) && nuevoEvento == old(nuevoEvento)
    {
      if editando.None? || !Completo(editando.value) {
        return false;
      }
      enviado := true;
      if ok {
        editando := None;
      }
    }
  }
}
