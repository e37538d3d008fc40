/** The upload route of the evidence controller: the upload filter on
    mimetype and size, the file type derived from the original file name,
    the parse of the incident id, the ownership gate for a CAPTURISTA, and
    the record handed to the service with the session user as uploader. */
module EvidenciasController {
  import opened Common
  import opened Text
  import opened Entities
  import opened JwtStrategy
  import opened EvidenciasService

  const SIN_ARCHIVO := "No se ha proporcionado ningún archivo"
  const ID_INVALIDO := "id_incidencia inválido"
  const SOLO_TIPOS := "Solo se permiten archivos JPG, PNG o PDF"
  /** The message the upload library gives a file over its size limit. */
  const ARCHIVO_GRANDE := "File too large"

  /** The mimetypes the upload filter lets through. */
  const MIMETYPES: seq<string> := ["image/jpeg", "image/jpg", "image/png", "application/pdf"]
  /** 5 MiB. */
  const TAMANO_MAXIMO: nat := 5 * 1024 * 1024

  /** An uploaded file as the upload library describes it. */
  datatype Archivo = Archivo(originalname: string, mimetype: string, size: nat, path: string)

  /** The text fields of the multipart body. */
  datatype UploadBody = UploadBody(id_incidencia: Option<string>, usuario_subio: Option<string>)

  /** The position of the last `c` in `s`. */
  function UltimoIndice(s: string, c: char): (r: Option<nat>)
    ensures r.Some? ==> r.value < |s| && s[r.value] == c && forall j :: r.value < j < |s| ==> s[j] != c
    ensures r.None? ==> c !in s
  {
    if s == [] then None
    else if s[|s| - 1] == c then Some(|s| - 1)
    else
      var r := UltimoIndice(s[..|s| - 1], c);
      assert forall j :: 0 <= j < |s| - 1 ==> s[j] == s[..|s| - 1][j];
      r
  }

  /** The last path segment: the text after the last '/'. */
  function Basename(p: string): (r: string)
    ensures '/' !in r && EndsWith(p, r)
  {
    var i := UltimoIndice(p, '/');
    if i.None? then p else p[i.value + 1..]
  }

  /** The extension of a path: from the last '.' of the last segment to its
      end; empty when the segment has no '.', starts with its only dot, or
      is "..". */
  function Extname(p: string): (r: string)
    ensures r == "" || (r[0] == '.' && '.' !in r[1..] && '/' !in r && EndsWith(p, r))
  {
    var b := Basename(p);
    var d := UltimoIndice(b, '.');
    if d.None? || d.value == 0 || b == ".." then ""
    else
      SufijoDeSufijo(p, b, d.value);
      b[d.value..]
  }

  /** A suffix of the last segment is a suffix of the path, and the text
      after the last dot has no dot. */
  lemma SufijoDeSufijo(p: string, b: string, d: nat)
    requires EndsWith(p, b) && d < |b| && '/' !in b
    requires forall j :: d < j < |b| ==> b[j] != '.'
    ensures EndsWith(p, b[d..]) && '/' !in b[d..] && '.' !in b[d..][1..]
  {
    var r := b[d..];
    assert forall j :: 0 <= j < |r| - 1 ==> r[1..][j] == b[d + 1 + j];
    assert b[|b| - |r|..] == r;
    assert p[|p| - |b|..] == b;
    assert p[|p| - |r|..] == b[|b| - |r|..];
  }

  /** The text after the first character. */
  function SinPrimero(s: string): string
  {
    if |s| == 0 then "" else s[1..]
  }

  /** The mapping of an upper-cased extension to a stored type. */
  function TipoDeExtension(ext: string): (t: string)
    ensures t in TIPOS
    ensures ext == "JPEG" ==> t == "JPG"
    ensures ext in TIPOS ==> t == ext
    ensures ext != "JPEG" && ext !in TIPOS ==> t == "JPG"
  {
    if ext in ["JPG", "JPEG", "PNG", "PDF"] then (if ext == "JPEG" then "JPG" else ext) else "JPG"
  }

  /** The `tipo_archivo` upload derives from the original file name. */
  function TipoArchivo(originalname: string): (t: string)
    ensures t in TIPOS
  {
    TipoDeExtension(Upper(SinPrimero(Extname(originalname))))
  }

  /** A plain file name "base.ext" has the extension ".ext". */
  lemma ExtnameSimple(base: string, ext: string)
    requires base != "" && '.' !in base && '/' !in base
    requires '.' !in ext && '/' !in ext
    ensures Extname(base + "." + ext) == "." + ext
  {
    var s := base + "." + ext;
    assert forall j :: 0 <= j < |base| ==> s[j] == base[j];
    assert forall j :: |base| < j < |s| ==> s[j] == ext[j - |base| - 1];
    assert '/' !in s;
    assert Basename(s) == s;
    var d := UltimoIndice(s, '.');
    assert s[|base|] == '.';
    assert d == Some(|base|);
    assert s != ".." by {
      assert s[0] == base[0];
    }
    assert s[|base|..] == "." + ext;
  }

  /** The type of a plain file name is decided by its extension alone,
      without regard to letter case. */
  lemma TipoArchivoSimple(base: string, ext: string)
    requires base != "" && '.' !in base && '/' !in base
    requires '.' !in ext && '/' !in ext
    ensures TipoArchivo(base + "." + ext) == TipoDeExtension(Upper(ext))
  {
    ExtnameSimple(base, ext);
    assert SinPrimero("." + ext) == ext;
  }

  /** "JPEG" in any letter case is stored as "JPG". */
  lemma TipoArchivoJpeg(base: string, ext: string)
    requires base != "" && '.' !in base && '/' !in base
    requires '.' !in ext && '/' !in ext && Upper(ext) == "JPEG"
    ensures TipoArchivo(base + "." + ext) == "JPG"
  {
    TipoArchivoSimple(base, ext);
  }

  /** A name whose only dot leads it has no extension, so it is stored as
      "JPG" whatever follows the dot. */
  lemma TipoArchivoOculto(ext: string)
    requires '.' !in ext && '/' !in ext
    ensures TipoArchivo("." + ext) == "JPG"
  {
    var s := "." + ext;
    assert forall j :: 0 < j < |s| ==> s[j] == ext[j - 1];
    assert '/' !in s;
    assert Basename(s) == s;
    assert UltimoIndice(s, '.') == Some(0);
  }

  /** The upload filter: the mimetype allowlist, then the size limit. */
  function FiltroArchivo(f: Archivo): (o: Outcome)
    ensures o == Pass <==> f.mimetype in MIMETYPES && f.size <= TAMANO_MAXIMO
    ensures f.mimetype !in MIMETYPES ==> o == Fail(BadRequest(SOLO_TIPOS))
    ensures f.mimetype in MIMETYPES && f.size > TAMANO_MAXIMO ==> o == Fail(PayloadTooLarge(ARCHIVO_GRANDE))
  {
    if f.mimetype !in MIMETYPES then Fail(BadRequest(SOLO_TIPOS))
    else if f.size > TAMANO_MAXIMO then Fail(PayloadTooLarge(ARCHIVO_GRANDE))
    else Pass
  }

  /** The incident id read from the body as a base-10 integer; a missing
      field or one without leading digits gives no number. */
  function IdIncidencia(body: UploadBody): Option<int>
  {
    if body.id_incidencia.None? then None else ParseInt(body.id_incidencia.value)
  }

  /** Everything upload does before calling create: the record it would
      create, or the error that stops it. */
  function PrepararUpload(file: Option<Archivo>, body: UploadBody, user: Principal,
                          incidencias: map<int, Incidencia>): (r: Result<CreateEvidenciaDto>)
    ensures file.None? ==> r == Err(BadRequest(SIN_ARCHIVO))
    ensures file.Some? && FiltroArchivo(file.value).Fail? ==> r == Err(FiltroArchivo(file.value).error)
    ensures file.Some? && FiltroArchivo(file.value) == Pass && IdIncidencia(body).None? ==>
              r == Err(BadRequest(ID_INVALIDO))
    ensures r.Ok? ==>
      && file.Some? && FiltroArchivo(file.value) == Pass
      && IdIncidencia(body).Some?
      && r.value == CreateEvidenciaDto(IdIncidencia(body), Some(user.userId), Some(file.value.path),
                                       Some(TipoArchivo(file.value.originalname)))
      && (user.role == ROL_CAPTURISTA ==>
            ValidateCapturistaOwnership(incidencias, IdIncidencia(body).value, user.userId) == Pass)
    ensures (user.role != ROL_CAPTURISTA && file.Some? && FiltroArchivo(file.value) == Pass
             && IdIncidencia(body).Some?) ==> r.Ok?
    ensures (user.role == ROL_CAPTURISTA && file.Some? && FiltroArchivo(file.value) == Pass
             && IdIncidencia(body).Some?) ==>
              (r.Ok? <==> ValidateCapturistaOwnership(incidencias, IdIncidencia(body).value, user.userId) == Pass)
  {
    if file.None? then Err(BadRequest(SIN_ARCHIVO))
    else if FiltroArchivo(file.value).Fail? then Err(FiltroArchivo(file.value).error)
    else
      var id := IdIncidencia(body);
      if id.None? then Err(BadRequest(ID_INVALIDO))
      else
        var gate := if user.role == ROL_CAPTURISTA
                    then ValidateCapturistaOwnership(incidencias, id.value, user.userId)
                    else Pass;
        if gate.Fail? then Err(gate.error)
        else Ok(CreateEvidenciaDto(id, Some(user.userId), Some(file.value.path),
                                   Some(TipoArchivo(file.value.originalname))))
  }

  /** The uploader field of the body plays no part. */
  lemma UsuarioSubioIgnorado(file: Option<Archivo>, body: UploadBody, otro: Option<string>,
                             user: Principal, incidencias: map<int, Incidencia>)
    ensures PrepararUpload(file, body, user, incidencias)
         == PrepararUpload(file, body.(usuario_subio := otro), user, incidencias)
  {
  }

  /** A record upload hands over passes the service's checks whenever the
      ids are non-zero and the stored path is non-empty: the type check
      never fails. */
  lemma PrepararUploadValido(file: Option<Archivo>, body: UploadBody, user: Principal,
                             incidencias: map<int, Incidencia>)
    requires PrepararUpload(file, body, user, incidencias).Ok?
    ensures var dto := PrepararUpload(file, body, user, incidencias).value;
            ValidarCreate(dto) == Pass <==>
              dto.id_incidencia.value != 0 && user.userId != 0 && file.value.path != ""
  {
  }

  /** upload: the filter and the handler, then create. The route's guards
      admit only an ADMIN or a CAPTURISTA. */
  method Upload(t: EvidenciasTable, incidencias: map<int, Incidencia>, file: Option<Archivo>,
                body: UploadBody, user: Principal, ahora: int) returns (r: Result<Evidencia>)
    requires user.role == ROL_ADMIN || user.role == ROL_CAPTURISTA
    requires t.Valid()
    modifies t
    ensures t.Valid()
    ensures PrepararUpload(file, body, user, incidencias).Err? ==>
      && r == Err(PrepararUpload(file, body, user, incidencias).error)
      && t.rows == old(t.rows) && t.nextId == old(t.nextId)
    ensures PrepararUpload(file, body, user, incidencias).Ok? ==>
      var dto := PrepararUpload(file, body, user, incidencias).value;
      && (ValidarCreate(dto).Fail? ==>
            r == Err(ValidarCreate(dto).error) && t.rows == old(t.rows) && t.nextId == old(t.nextId))
      && (ValidarCreate(dto) == Pass ==>
            && r == Ok(Evidencia(old(t.nextId), dto.id_incidencia.value, user.userId, file.value.path,
                                 TipoArchivo(file.value.originalname), ahora))
            && t.rows == old(t.rows)[old(t.nextId) := r.value]
            && t.nextId == old(t.nextId) + 1)
  {
    var dto := PrepararUpload(file, body, user, incidencias);
    if dto.Err? {
      return Err(dto.error);
    }
    r := t.Create(dto.value, ahora);
  }
}
