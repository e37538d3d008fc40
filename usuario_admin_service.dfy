/** User administration: listing users without their password hash,
    creating a user with a unique address and a hashed password, updating
    only the supplied fields, toggling the status, and deleting. The hash
    function is a parameter. */
module UsuarioAdminService {
  import opened Common
  import opened Text
  import opened Lists
  import opened Entities
  import opened Tablas

  function NoEncontrado(id: int): string
  {
    "Usuario " + IntToString(id) + " no encontrado"
  }

  const FALTAN_CAMPOS := "Faltan campos obligatorios"
  const CORREO_REGISTRADO := "El correo ya está registrado"

  /** The columns findAll and findOne select: every column but the hash. */
  datatype UsuarioPublico = UsuarioPublico(idUsuario: int, nombre: string, correo: string, rol: string, estatus: string)

  function Vista(u: Usuario): (v: UsuarioPublico)
    ensures v.idUsuario == u.idUsuario && v.nombre == u.nombre && v.correo == u.correo
    ensures v.rol == u.rol && v.estatus == u.estatus
  {
    UsuarioPublico(u.idUsuario, u.nombre, u.correo, u.rol, u.estatus)
  }

  function Vistas(s: seq<Usuario>): (r: seq<UsuarioPublico>)
    ensures |r| == |s|
    ensures forall i :: 0 <= i < |s| ==> r[i] == Vista(s[i])
  {
    if s == [] then [] else [Vista(s[0])] + Vistas(s[1..])
  }

  /** `v` is the public view of some user of `s`. */
  predicate VistaEn(s: seq<Usuario>, v: UsuarioPublico)
  {
    exists u :: u in s && Vista(u) == v
  }

  /** `v` is the public view of some stored user. */
  predicate VistaDe(rows: map<int, Usuario>, v: UsuarioPublico)
  {
    exists u :: u in rows.Values && Vista(u) == v
  }

  /** `ORDER BY idUsuario DESC`: `a` may come before `b`. */
  predicate IdDesc(a: UsuarioPublico, b: UsuarioPublico)
  {
    a.idUsuario >= b.idUsuario
  }

  lemma IdDescOrden()
    ensures TotalPreorder(IdDesc)
  {
  }

  function FindAll(rows: seq<Usuario>): seq<UsuarioPublico>
  {
    SortBy(Vistas(rows), IdDesc)
  }

  /** findAll lists the public view of every stored user, newest id first. */
  lemma FindAllExacto(rows: seq<Usuario>)
    ensures |FindAll(rows)| == |rows|
    ensures forall v :: v in FindAll(rows) <==> VistaEn(rows, v)
    ensures SortedBy(FindAll(rows), IdDesc)
  {
    var q := Vistas(rows);
    assert forall v :: v in SortBy(q, IdDesc) <==> v in multiset(SortBy(q, IdDesc));
    assert forall v :: v in q <==> v in multiset(q);
    forall v
      ensures v in q <==> VistaEn(rows, v)
    {
      if v in q {
        var i :| 0 <= i < |q| && q[i] == v;
        assert rows[i] in rows;
      }
      if VistaEn(rows, v) {
        var u :| u in rows && Vista(u) == v;
        var i :| 0 <= i < |rows| && rows[i] == u;
        assert q[i] == v;
      }
    }
    IdDescOrden();
    SortBySorted(q, IdDesc);
  }

  /** Users with distinct ids are listed once each. */
  lemma FindAllUnaVez(rows: seq<Usuario>)
    requires forall i, j :: 0 <= i < j < |rows| ==> rows[i].idUsuario != rows[j].idUsuario
    ensures forall v :: v in FindAll(rows) ==> multiset(FindAll(rows))[v] == 1
  {
    var q := Vistas(rows);
    assert Distinct(q) by {
      forall i, j | 0 <= i < j < |q|
        ensures q[i] != q[j]
      {
        assert q[i].idUsuario == rows[i].idUsuario;
        assert q[j].idUsuario == rows[j].idUsuario;
      }
    }
    forall v | v in FindAll(rows)
      ensures multiset(FindAll(rows))[v] == 1
    {
      assert v in multiset(FindAll(rows));
      DistinctCount(q, v);
    }
  }

  /** The primary key column. */
  function Clave(): Usuario -> int
  {
    (u: Usuario) => u.idUsuario
  }

  /** A `CreateUsuarioDto`/`UpdateUsuarioDto` body; every field may be missing. */
  datatype UsuarioDto = UsuarioDto(
    nombre: Option<string>,
    correo: Option<string>,
    password: Option<string>,
    rol: Option<string>,
    estatus: Option<string>)

  predicate CorreoTomado(rows: map<int, Usuario>, correo: string)
  {
    exists k :: k in rows && rows[k].correo == correo
  }

  /** A stored user other than `id` has the email `correo`: the unique
      column refuses to give the row `id` that email. */
  predicate CorreoDeOtro(rows: map<int, Usuario>, id: int, correo: string)
  {
    exists k :: k in rows && k != id && rows[k].correo == correo
  }

  ghost predicate CorreosUnicos(rows: map<int, Usuario>)
  {
    forall a, b :: a in rows && b in rows && rows[a].correo == rows[b].correo ==> a == b
  }

  /** The checks of create, in their order. */
  function ValidarCreate(rows: map<int, Usuario>, d: UsuarioDto): (o: Outcome)
    ensures !(TruthyStr(d.nombre) && TruthyStr(d.correo) && TruthyStr(d.password)) ==>
              o == Fail(PlainError(FALTAN_CAMPOS))
    ensures o == Pass <==>
      TruthyStr(d.nombre) && TruthyStr(d.correo) && TruthyStr(d.password) && !CorreoTomado(rows, d.correo.value)
    ensures TruthyStr(d.nombre) && TruthyStr(d.correo) && TruthyStr(d.password) && CorreoTomado(rows, d.correo.value) ==>
              o == Fail(Conflict(CORREO_REGISTRADO))
  {
    if !(TruthyStr(d.nombre) && TruthyStr(d.correo) && TruthyStr(d.password)) then Fail(PlainError(FALTAN_CAMPOS))
    else if CorreoTomado(rows, d.correo.value) then Fail(Conflict(CORREO_REGISTRADO))
    else Pass
  }

  /** The row create saves: the hash of the password, never the password,
      with rol CAPTURISTA and estatus ACTIVO unless supplied. */
  function NuevoUsuario(id: int, d: UsuarioDto, hashear: string -> string): (u: Usuario)
    requires TruthyStr(d.nombre) && TruthyStr(d.correo) && TruthyStr(d.password)
    ensures u.idUsuario == id && u.nombre == d.nombre.value && u.correo == d.correo.value
    ensures u.passwordHash == hashear(d.password.value)
    ensures u.rol == (if TruthyStr(d.rol) then d.rol.value else ROL_CAPTURISTA)
    ensures u.estatus == (if TruthyStr(d.estatus) then d.estatus.value else ACTIVO)
  {
    Usuario(id, d.nombre.value, d.correo.value, hashear(d.password.value),
            OrStr(d.rol, ROL_CAPTURISTA), OrStr(d.estatus, ACTIVO))
  }

  /** The row after update: each truthy field overwrites its column, and a
      truthy password replaces the hash; nothing else changes. */
  function Actualizar(row: Usuario, d: UsuarioDto, hashear: string -> string): (u: Usuario)
    ensures u.idUsuario == row.idUsuario
    ensures u.nombre == (if TruthyStr(d.nombre) then d.nombre.value else row.nombre)
    ensures u.correo == (if TruthyStr(d.correo) then d.correo.value else row.correo)
    ensures u.rol == (if TruthyStr(d.rol) then d.rol.value else row.rol)
    ensures u.estatus == (if TruthyStr(d.estatus) then d.estatus.value else row.estatus)
    ensures u.passwordHash == (if TruthyStr(d.password) then hashear(d.password.value) else row.passwordHash)
  {
    Usuario(row.idUsuario, OrStr(d.nombre, row.nombre), OrStr(d.correo, row.correo),
            if TruthyStr(d.password) then hashear(d.password.value) else row.passwordHash,
            OrStr(d.rol, row.rol), OrStr(d.estatus, row.estatus))
  }

  /** Empty strings count as not supplied: such a body changes nothing. */
  lemma ActualizarVacio(row: Usuario, hashear: string -> string)
    ensures Actualizar(row, UsuarioDto(Some(""), Some(""), Some(""), Some(""), Some("")), hashear) == row
    ensures Actualizar(row, UsuarioDto(None, None, None, None, None), hashear) == row
  {
  }

  /** A scan of the table has the views of exactly the stored users. */
  lemma VistasDeFilas(rows: map<int, Usuario>, scan: seq<Usuario>)
    requires forall u :: u in scan <==> u in rows.Values
    ensures forall v :: VistaEn(scan, v) <==> VistaDe(rows, v)
  {
    forall v
      ensures VistaEn(scan, v) <==> VistaDe(rows, v)
    {
      if VistaEn(scan, v) {
        var u :| u in scan && Vista(u) == v;
        assert VistaDe(rows, v);
      }
      if VistaDe(rows, v) {
        var u :| u in rows.Values && Vista(u) == v;
        assert VistaEn(scan, v);
      }
    }
  }

  class UsuariosTable {
    var rows: map<int, Usuario>
    /** The next value of the serial primary key. */
    var nextId: int

    /** Every row sits under its own key, below the next generated one. */
    ghost predicate Valid()
      reads this
    {
      && 1 <= nextId
      && ClavesPropias(rows, Clave())
      && forall k :: k in rows ==> 1 <= k < nextId
    }

    constructor ()
      ensures Valid() && rows == map[] && nextId == 1
    {
      rows := map[];
      nextId := 1;
    }

    /** findAll over the stored users: every user's view once. */
    method FindAllM() returns (r: seq<UsuarioPublico>)
      requires Valid()
      ensures forall v :: v in r <==> VistaDe(rows, v)
      ensures |r| == |rows|
      ensures forall v :: v in r ==> multiset(r)[v] == 1
      ensures SortedBy(r, IdDesc)
    {
      var m := rows;
      var scan := Values(m);
      PropiasInyectiva(m, Clave());
      assert Distinct(scan);
      forall i, j | 0 <= i < j < |scan|
        ensures scan[i].idUsuario != scan[j].idUsuario
      {
        assert scan[i] in m.Values && scan[j] in m.Values;
        ClaveDeFila(m, Clave(), scan[i]);
        ClaveDeFila(m, Clave(), scan[j]);
      }
      r := FindAll(scan);
      FindAllExacto(scan);
      FindAllUnaVez(scan);
      VistasDeFilas(m, scan);
    }

    method FindOne(id: int) returns (r: Result<UsuarioPublico>)
      ensures id in rows ==> r == Ok(Vista(rows[id]))
      ensures id !in rows ==> r == Err(NotFound(NoEncontrado(id)))
    {
      if id in rows {
        r := Ok(Vista(rows[id]));
      } else {
        r := Err(NotFound(NoEncontrado(id)));
      }
    }

    /** create: the saved entity is returned as saved, hash included. */
    method Create(d: UsuarioDto, hashear: string -> string) returns (r: Result<Usuario>)
      requires Valid()
      modifies this
      ensures Valid()
      ensures ValidarCreate(old(rows), d).Fail? ==>
        r == Err(ValidarCreate(old(rows), d).error) && rows == old(rows) && nextId == old(nextId)
      ensures ValidarCreate(old(rows), d) == Pass ==>
        && old(nextId) !in old(rows)
        && r == Ok(NuevoUsuario(old(nextId), d, hashear))
        && rows == old(rows)[old(nextId) := r.value]
        && nextId == old(nextId) + 1
      ensures CorreosUnicos(old(rows)) ==> CorreosUnicos(rows)
    {
      var v := ValidarCreate(rows, d);
      if v.Fail? {
        return Err(v.error);
      }
      var row := NuevoUsuario(nextId, d, hashear);
      rows := rows[nextId := row];
      nextId := nextId + 1;
      r := Ok(row);
    }

    /** update: the `UPDATE` of the truthy fields, which the database
        refuses with 23505 when the new email is another user's, then the
        view of the row read back. */
    method Update(id: int, d: UsuarioDto, hashear: string -> string) returns (r: Result<UsuarioPublico>)
      requires Valid()
      modifies this
      ensures Valid() && nextId == old(nextId)
      ensures id !in old(rows) ==> r == Err(NotFound(NoEncontrado(id))) && rows == old(rows)
      ensures id in old(rows) && CorreoDeOtro(old(rows), id, Actualizar(old(rows)[id], d, hashear).correo) ==>
        r == Err(QueryFailed(UNIQUE_VIOLATION)) && rows == old(rows)
      ensures id in old(rows) && !CorreoDeOtro(old(rows), id, Actualizar(old(rows)[id], d, hashear).correo) ==>
        && rows == old(rows)[id := Actualizar(old(rows)[id], d, hashear)]
        && r == Ok(Vista(rows[id]))
      ensures CorreosUnicos(old(rows)) ==> CorreosUnicos(rows)
    {
      if id !in rows {
        return Err(NotFound(NoEncontrado(id)));
      }
      var row := Actualizar(rows[id], d, hashear);
      if CorreoDeOtro(rows, id, row.correo) {
        return Err(QueryFailed(UNIQUE_VIOLATION));
      }
      rows := rows[id := row];
      r := Ok(Vista(row));
    }

    method ToggleEstatus(id: int) returns (r: Result<UsuarioPublico>)
      requires Valid()
      modifies this
      ensures Valid() && nextId == old(nextId)
      ensures id !in old(rows) ==> r == Err(NotFound(NoEncontrado(id))) && rows == old(rows)
      ensures id in old(rows) ==>
        && rows == old(rows)[id := old(rows)[id].(estatus := Alternado(old(rows)[id].estatus))]
        && r == Ok(Vista(rows[id]))
    {
      if id !in rows {
        return Err(NotFound(NoEncontrado(id)));
      }
      var row := rows[id].(estatus := Alternado(rows[id].estatus));
      rows := rows[id := row];
      r := Ok(Vista(row));
    }

    method Remove(id: int) returns (r: Result<Mensaje>)
      requires Valid()
      modifies this
      ensures Valid() && nextId == old(nextId)
      ensures id !in old(rows) ==> r == Err(NotFound(NoEncontrado(id))) && rows == old(rows)
      ensures id in old(rows) ==>
        && r == Ok(Mensaje(true, "Usuario " + IntToString(id) + " eliminado correctamente"))
        && rows == old(rows) - {id}
    {
      if id !in rows {
        return Err(NotFound(NoEncontrado(id)));
      }
      rows := rows - {id};
      r := Ok(Mensaje(true, "Usuario " + IntToString(id) + " eliminado correctamente"));
    }
  }
}
