/** The evidence service: the ownership check a CAPTURISTA must pass before
    uploading, the evidence table with its create and delete operations, the
    per-incident listing and the per-type counts. */
module EvidenciasService {
  import opened Common
  import opened Text
  import opened Lists
  import opened Entities
  import opened Tablas
  import IncidenciasService

  function NoEncontrada(id: int): string
  {
    "Evidencia con ID " + IntToString(id) + " no encontrada"
  }

  const SOLO_PROPIAS := "Solo puedes subir evidencias de incidencias que registraste"
  const TODOS_OBLIGATORIOS := "Todos los campos son obligatorios"
  const TIPO_INVALIDO := "El tipo de archivo debe ser JPG, PNG o PDF"

  /** The file types the service accepts. */
  const TIPOS: seq<string> := ["JPG", "PNG", "PDF"]

  /** validateCapturistaOwnership, over the incident table. */
  function ValidateCapturistaOwnership(incidencias: map<int, Incidencia>, incidenciaId: int, userId: int)
    : (o: Outcome)
    ensures incidenciaId !in incidencias ==> o == Fail(NotFound(IncidenciasService.NoEncontrada(incidenciaId)))
    ensures incidenciaId in incidencias && incidencias[incidenciaId].usuario_crea != userId ==>
              o == Fail(Forbidden(SOLO_PROPIAS))
    ensures o == Pass <==> incidenciaId in incidencias && incidencias[incidenciaId].usuario_crea == userId
  {
    if incidenciaId !in incidencias then Fail(NotFound(IncidenciasService.NoEncontrada(incidenciaId)))
    else if incidencias[incidenciaId].usuario_crea != userId then Fail(Forbidden(SOLO_PROPIAS))
    else Pass
  }

  /** A `CreateEvidenciaDto` as it arrives: any field may be missing. */
  datatype CreateEvidenciaDto = CreateEvidenciaDto(
    id_incidencia: Option<int>,
    usuario_subio: Option<int>,
    ruta_archivo: Option<string>,
    tipo_archivo: Option<string>)

  /** The checks of create, in their order. */
  function ValidarCreate(dto: CreateEvidenciaDto): (o: Outcome)
    ensures !(TruthyInt(dto.id_incidencia) && TruthyInt(dto.usuario_subio)
              && TruthyStr(dto.ruta_archivo) && TruthyStr(dto.tipo_archivo)) ==>
            o == Fail(BadRequest(TODOS_OBLIGATORIOS))
    ensures o == Pass <==>
      && TruthyInt(dto.id_incidencia) && TruthyInt(dto.usuario_subio)
      && TruthyStr(dto.ruta_archivo) && TruthyStr(dto.tipo_archivo)
      && dto.tipo_archivo.value in TIPOS
    ensures o.Fail? ==> o.error.BadRequest?
  {
    if !(TruthyInt(dto.id_incidencia) && TruthyInt(dto.usuario_subio)
         && TruthyStr(dto.ruta_archivo) && TruthyStr(dto.tipo_archivo))
    then Fail(BadRequest(TODOS_OBLIGATORIOS))
    else if dto.tipo_archivo.value !in TIPOS then Fail(BadRequest(TIPO_INVALIDO))
    else Pass
  }

  function DeIncidencia(idIncidencia: int): Evidencia -> bool
  {
    (e: Evidencia) => e.id_incidencia == idIncidencia
  }

  /** `ORDER BY fecha_subida DESC`: `a` may come before `b`. */
  predicate MasNueva(a: Evidencia, b: Evidencia)
  {
    a.fecha_subida >= b.fecha_subida
  }

  lemma MasNuevaOrden()
    ensures TotalPreorder(MasNueva)
  {
  }

  /** findByIncidencia: the evidences of one incident, newest first. */
  function FindByIncidencia(rows: seq<Evidencia>, idIncidencia: int): seq<Evidencia>
  {
    SortBy(Filter(rows, DeIncidencia(idIncidencia)), MasNueva)
  }

  lemma FindByIncidenciaExacto(rows: seq<Evidencia>, idIncidencia: int)
    ensures forall x :: x in FindByIncidencia(rows, idIncidencia) <==> x in rows && x.id_incidencia == idIncidencia
    ensures forall x: Evidencia :: x.id_incidencia == idIncidencia ==>
              multiset(FindByIncidencia(rows, idIncidencia))[x] == multiset(rows)[x]
    ensures SortedBy(FindByIncidencia(rows, idIncidencia), MasNueva)
  {
    var q := Filter(rows, DeIncidencia(idIncidencia));
    assert forall x :: x in SortBy(q, MasNueva) <==> x in multiset(SortBy(q, MasNueva));
    assert forall x :: x in q <==> x in multiset(q);
    forall x: Evidencia | x.id_incidencia == idIncidencia
      ensures multiset(FindByIncidencia(rows, idIncidencia))[x] == multiset(rows)[x]
    {
      FilterCount(rows, DeIncidencia(idIncidencia), x);
    }
    MasNuevaOrden();
    SortBySorted(q, MasNueva);
  }

  // ---------------------------------------------------------------------
  // Counts per file type

  /** One entry of `por_tipo`. */
  datatype Conteo = Conteo(tipo: string, cantidad: nat)

  /** How many of `evs` have type `t`. */
  function CuentaTipo(evs: seq<Evidencia>, t: string): nat
  {
    if evs == [] then 0
    else CuentaTipo(evs[..|evs| - 1], t) + (if evs[|evs| - 1].tipo_archivo == t then 1 else 0)
  }

  function Tipos(evs: seq<Evidencia>): set<string>
  {
    set e | e in evs :: e.tipo_archivo
  }

  function Claves(p: seq<Conteo>): set<string>
  {
    set c | c in p :: c.tipo
  }

  predicate ClavesUnicas(p: seq<Conteo>)
  {
    forall i, j :: 0 <= i < j < |p| ==> p[i].tipo != p[j].tipo
  }

  function Suma(p: seq<Conteo>): nat
  {
    if p == [] then 0 else Suma(p[..|p| - 1]) + p[|p| - 1].cantidad
  }

  /** The position of type `t` in `p`, if it has one. */
  function Indice(p: seq<Conteo>, t: string): (r: Option<nat>)
    ensures r.Some? ==> r.value < |p| && p[r.value].tipo == t
    ensures r.None? ==> t !in Claves(p)
  {
    if p == [] then None
    else if p[0].tipo == t then Some(0)
    else
      var r := Indice(p[1..], t);
      assert forall c :: c in p ==> c == p[0] || c in p[1..];
      if r.Some? then Some(r.value + 1) else None
  }

  lemma CuentaTipoPaso(evs: seq<Evidencia>, i: int, t: string)
    requires 0 <= i < |evs|
    ensures CuentaTipo(evs[..i + 1], t) == CuentaTipo(evs[..i], t) + (if evs[i].tipo_archivo == t then 1 else 0)
  {
    assert evs[..i + 1][..i] == evs[..i];
  }

  /** The total count `p` holds for type `u`, over all its entries. */
  function CantidadDe(p: seq<Conteo>, u: string): nat
  {
    if p == [] then 0
    else CantidadDe(p[..|p| - 1], u) + (if p[|p| - 1].tipo == u then p[|p| - 1].cantidad else 0)
  }

  /** With unique keys, the entry of a type holds that type's whole count. */
  lemma {:induction false} CantidadDeEntrada(p: seq<Conteo>, k: int)
    requires ClavesUnicas(p) && 0 <= k < |p|
    ensures CantidadDe(p, p[k].tipo) == p[k].cantidad
    decreases |p|
  {
    if k < |p| - 1 {
      CantidadDeEntrada(p[..|p| - 1], k);
    } else {
      CantidadDeAusente(p[..|p| - 1], p[k].tipo);
    }
  }

  lemma {:induction false} CantidadDeAusente(p: seq<Conteo>, u: string)
    requires u !in Claves(p)
    ensures CantidadDe(p, u) == 0
    decreases |p|
  {
    if p != [] {
      assert p[|p| - 1] in p;
      assert forall c :: c in p[..|p| - 1] ==> c in p;
      CantidadDeAusente(p[..|p| - 1], u);
    }
  }

  /** Raising one entry raises the sum, and that type's count, by one. */
  lemma {:induction false} Incremento(p: seq<Conteo>, j: int, u: string)
    requires 0 <= j < |p|
    ensures Suma(p[j := Conteo(p[j].tipo, p[j].cantidad + 1)]) == Suma(p) + 1
    ensures CantidadDe(p[j := Conteo(p[j].tipo, p[j].cantidad + 1)], u) ==
              CantidadDe(p, u) + (if p[j].tipo == u then 1 else 0)
    decreases |p|
  {
    var q := p[j := Conteo(p[j].tipo, p[j].cantidad + 1)];
    if j < |p| - 1 {
      assert q[..|q| - 1] == p[..|p| - 1][j := Conteo(p[j].tipo, p[j].cantidad + 1)];
      Incremento(p[..|p| - 1], j, u);
    } else {
      assert q[..|q| - 1] == p[..|p| - 1];
    }
  }

  /** Changing the count of one entry keeps the set of types. */
  lemma ClavesIncremento(p: seq<Conteo>, j: int)
    requires 0 <= j < |p|
    ensures Claves(p[j := Conteo(p[j].tipo, p[j].cantidad + 1)]) == Claves(p)
    ensures ClavesUnicas(p) ==> ClavesUnicas(p[j := Conteo(p[j].tipo, p[j].cantidad + 1)])
  {
    var q := p[j := Conteo(p[j].tipo, p[j].cantidad + 1)];
    forall c | c in q
      ensures c.tipo in Claves(p)
    {
      var k :| 0 <= k < |q| && q[k] == c;
      assert p[k].tipo == c.tipo && p[k] in p;
    }
    forall c | c in p
      ensures c.tipo in Claves(q)
    {
      var k :| 0 <= k < |p| && p[k] == c;
      assert q[k].tipo == c.tipo && q[k] in q;
    }
  }

  /** Appending an entry for a new type adds that type, keeping keys unique. */
  lemma ClavesNueva(p: seq<Conteo>, t: string)
    requires t !in Claves(p)
    ensures Claves(p + [Conteo(t, 1)]) == Claves(p) + {t}
    ensures ClavesUnicas(p) ==> ClavesUnicas(p + [Conteo(t, 1)])
    ensures Suma(p + [Conteo(t, 1)]) == Suma(p) + 1
    ensures forall u :: CantidadDe(p + [Conteo(t, 1)], u) == CantidadDe(p, u) + (if t == u then 1 else 0)
  {
    var q := p + [Conteo(t, 1)];
    assert q[..|q| - 1] == p;
    assert forall c :: c in q <==> c in p || c == Conteo(t, 1);
    if ClavesUnicas(p) {
      forall i, k | 0 <= i < k < |q|
        ensures q[i].tipo != q[k].tipo
      {
        if k == |p| {
          assert q[i] in p;
        }
      }
    }
  }

  /** Raising the entry of an existing type `t` keeps the keys, adds one to
      the sum and one to the count of `t` only. */
  lemma AcumularExistente(p: seq<Conteo>, j: nat, t: string)
    requires j < |p| && p[j].tipo == t
    ensures Claves(p[j := Conteo(t, p[j].cantidad + 1)]) == Claves(p) + {t}
    ensures ClavesUnicas(p) ==> ClavesUnicas(p[j := Conteo(t, p[j].cantidad + 1)])
    ensures Suma(p[j := Conteo(t, p[j].cantidad + 1)]) == Suma(p) + 1
    ensures forall u :: CantidadDe(p[j := Conteo(t, p[j].cantidad + 1)], u)
                        == CantidadDe(p, u) + (if t == u then 1 else 0)
  {
    ClavesIncremento(p, j);
    Incremento(p, j, t);
    assert p[j] in p;
    forall u
      ensures CantidadDe(p[j := Conteo(t, p[j].cantidad + 1)], u)
              == CantidadDe(p, u) + (if t == u then 1 else 0)
    {
      Incremento(p, j, u);
    }
  }

  /** One more evidence of type `t` in the running counts: the entry of `t`
      goes up by one, or a new entry with count 1 is appended. */
  function Acumular(p: seq<Conteo>, t: string): (q: seq<Conteo>)
    ensures Claves(q) == Claves(p) + {t}
    ensures ClavesUnicas(p) ==> ClavesUnicas(q)
    ensures Suma(q) == Suma(p) + 1
    ensures forall u :: CantidadDe(q, u) == CantidadDe(p, u) + (if t == u then 1 else 0)
  {
    var j := Indice(p, t);
    if j.Some? then
      AcumularExistente(p, j.value, t);
      p[j.value := Conteo(t, p[j.value].cantidad + 1)]
    else
      ClavesNueva(p, t);
      p + [Conteo(t, 1)]
  }

  /** The `reduce` of getEstadisticasPorIncidencia: one entry per type that
      occurs, in order of first occurrence, counting its evidences. */
  method PorTipo(evs: seq<Evidencia>) returns (p: seq<Conteo>)
    ensures ClavesUnicas(p)
    ensures Claves(p) == Tipos(evs)
    ensures forall k :: 0 <= k < |p| ==> p[k].cantidad == CuentaTipo(evs, p[k].tipo)
    ensures Suma(p) == |evs|
  {
    p := [];
    var i := 0;
    while i < |evs|
      invariant 0 <= i <= |evs|
      invariant ClavesUnicas(p)
      invariant Claves(p) == Tipos(evs[..i])
      invariant forall u :: CantidadDe(p, u) == CuentaTipo(evs[..i], u)
      invariant Suma(p) == i
    {
      var t := evs[i].tipo_archivo;
      assert Tipos(evs[..i + 1]) == Tipos(evs[..i]) + {t} by {
        assert evs[..i + 1] == evs[..i] + [evs[i]];
      }
      forall u
        ensures CuentaTipo(evs[..i + 1], u) == CuentaTipo(evs[..i], u) + (if t == u then 1 else 0)
      {
        CuentaTipoPaso(evs, i, u);
      }
      p := Acumular(p, t);
      i := i + 1;
    }
    assert evs[..i] == evs;
    forall k | 0 <= k < |p|
      ensures p[k].cantidad == CuentaTipo(evs, p[k].tipo)
    {
      CantidadDeEntrada(p, k);
    }
  }

  /** What getEstadisticasPorIncidencia returns. */
  datatype EstadisticasEvidencias = EstadisticasEvidencias(
    total: nat,
    por_tipo: seq<Conteo>,
    evidencias: seq<Evidencia>)

  /** The primary key column. */
  function Clave(): Evidencia -> int
  {
    (e: Evidencia) => e.id_evidencia
  }

  class EvidenciasTable {
    var rows: map<int, Evidencia>
    /** The next value of the serial primary key. */
    var nextId: int

    /** Every row sits under its own key, below the next generated one. */
    ghost predicate Valid()
      reads this
    {
      && 1 <= nextId
      && ClavesPropias(rows, Clave())
      && forall k :: k in rows ==> 1 <= k < nextId
    }

    constructor ()
      ensures Valid() && rows == map[] && nextId == 1
    {
      rows := map[];
      nextId := 1;
    }

    /** findByIncidencia over the stored rows: each evidence of the
        incident once, newest first. */
    method FindByIncidenciaM(idIncidencia: int) returns (r: seq<Evidencia>)
      requires Valid()
      ensures forall x :: x in r <==> x in rows.Values && x.id_incidencia == idIncidencia
      ensures forall x :: x in r ==> multiset(r)[x] == 1
      ensures SortedBy(r, MasNueva)
    {
      var scan := Values(rows);
      PropiasInyectiva(rows, Clave());
      assert Distinct(scan);
      r := FindByIncidencia(scan, idIncidencia);
      FindByIncidenciaExacto(scan, idIncidencia);
      UnaVez(scan, r);
    }

    /** create, with the database's `NOW()` passed in as `ahora`. */
    method Create(dto: CreateEvidenciaDto, ahora: int) returns (r: Result<Evidencia>)
      requires Valid()
      modifies this
      ensures Valid()
      ensures ValidarCreate(dto).Fail? ==>
        r == Err(ValidarCreate(dto).error) && rows == old(rows) && nextId == old(nextId)
      ensures ValidarCreate(dto) == Pass ==>
        && old(nextId) !in old(rows)
        && r == Ok(Evidencia(old(nextId), dto.id_incidencia.value, dto.usuario_subio.value,
                             dto.ruta_archivo.value, dto.tipo_archivo.value, ahora))
        && rows == old(rows)[old(nextId) := r.value]
        && nextId == old(nextId) + 1
      ensures forall k :: k in rows ==> rows[k].tipo_archivo in TIPOS || (k in old(rows) && rows[k] == old(rows)[k])
    {
      var v := ValidarCreate(dto);
      if v.Fail? {
        return Err(v.error);
      }
      var row := Evidencia(nextId, dto.id_incidencia.value, dto.usuario_subio.value,
                           dto.ruta_archivo.value, dto.tipo_archivo.value, ahora);
      rows := rows[nextId := row];
      nextId := nextId + 1;
      r := Ok(row);
    }

    /** remove: the record is deleted; what happens to the stored file has
        no effect on the outcome. */
    method Remove(id: int) returns (r: Result<Mensaje>)
      requires Valid()
      modifies this
      ensures Valid() && nextId == old(nextId)
      ensures id !in old(rows) ==> r == Err(NotFound(NoEncontrada(id))) && rows == old(rows)
      ensures id in old(rows) ==>
        && r == Ok(Mensaje(true, "Evidencia " + IntToString(id) + " eliminada correctamente"))
        && rows == old(rows) - {id}
    {
      if id !in rows {
        return Err(NotFound(NoEncontrada(id)));
      }
      rows := rows - {id};
      r := Ok(Mensaje(true, "Evidencia " + IntToString(id) + " eliminada correctamente"));
    }

    /** getEstadisticasPorIncidencia: the incident's evidence, newest first
        and each once, with its count and its per-type tally. */
    method GetEstadisticasPorIncidencia(idIncidencia: int) returns (r: EstadisticasEvidencias)
      requires Valid()
      ensures forall x :: x in r.evidencias <==> x in rows.Values && x.id_incidencia == idIncidencia
      ensures forall x :: x in r.evidencias ==> multiset(r.evidencias)[x] == 1
      ensures SortedBy(r.evidencias, MasNueva)
      ensures r.total == |r.evidencias|
      ensures Suma(r.por_tipo) == r.total
      ensures ClavesUnicas(r.por_tipo) && Claves(r.por_tipo) == Tipos(r.evidencias)
      ensures forall k :: 0 <= k < |r.por_tipo| ==>
                r.por_tipo[k].cantidad == CuentaTipo(r.evidencias, r.por_tipo[k].tipo)
    {
      var evidencias := FindByIncidenciaM(idIncidencia);
      var p := PorTipo(evidencias);
      r := EstadisticasEvidencias(|evidencias|, p, evidencias);
    }
  }
}
