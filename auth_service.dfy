/** Credential checking and access-token payload construction. Password
    hashing and token signing are opaque: the hash comparison is a function
    parameter and a signature request is a record. */
module AuthService {
  import opened Common
  import opened Entities
  import opened JwtStrategy

  const CREDENCIALES_INVALIDAS := "Credenciales inválidas"
  /** The token lifetime when `JWT_EXPIRES_IN` is not configured. */
  const EXPIRACION_POR_DEFECTO := "15m"

  /** `findByEmail`: a stored user with that address (the column is unique). */
  function BuscarPorCorreo(usuarios: seq<Usuario>, correo: string): (r: Option<Usuario>)
    ensures r.Some? ==> r.value in usuarios && r.value.correo == correo
    ensures r.None? ==> forall u :: u in usuarios ==> u.correo != correo
  {
    if usuarios == [] then None
    else if usuarios[0].correo == correo then Some(usuarios[0])
    else BuscarPorCorreo(usuarios[1..], correo)
  }

  /** validateUser, with `compare(pass, hash)` standing for the hash check. */
  function ValidateUser(usuarios: seq<Usuario>, email: string, pass: string,
                        compare: (string, string) -> bool): (r: Result<Usuario>)
    ensures r.Err? ==> r == Err(Unauthorized(CREDENCIALES_INVALIDAS))
    ensures r.Ok? ==> r.value in usuarios && r.value.correo == email && compare(pass, r.value.passwordHash)
    ensures BuscarPorCorreo(usuarios, email).None? ==> r.Err?
    ensures r.Ok? <==> BuscarPorCorreo(usuarios, email).Some?
                       && compare(pass, BuscarPorCorreo(usuarios, email).value.passwordHash)
  {
    var user := BuscarPorCorreo(usuarios, email);
    if user.None? then Err(Unauthorized(CREDENCIALES_INVALIDAS))
    else if !compare(pass, user.value.passwordHash) then Err(Unauthorized(CREDENCIALES_INVALIDAS))
    else Ok(user.value)
  }

  /** The outcome does not depend on `estatus`: changing the status of every
      stored user changes nothing but the status of the returned user. */
  lemma EstatusNoConsultado(usuarios: seq<Usuario>, email: string, pass: string,
                            compare: (string, string) -> bool, estatus: string)
    ensures var otros := seq(|usuarios|, i requires 0 <= i < |usuarios| => usuarios[i].(estatus := estatus));
            var r := ValidateUser(usuarios, email, pass, compare);
            var r' := ValidateUser(otros, email, pass, compare);
            && r.Ok? == r'.Ok?
            && (r.Ok? ==> r'.value == r.value.(estatus := estatus))
  {
    var otros := seq(|usuarios|, i requires 0 <= i < |usuarios| => usuarios[i].(estatus := estatus));
    BuscarConEstatus(usuarios, email, estatus);
  }

  lemma {:induction false} BuscarConEstatus(usuarios: seq<Usuario>, correo: string, estatus: string)
    ensures var otros := seq(|usuarios|, i requires 0 <= i < |usuarios| => usuarios[i].(estatus := estatus));
            var b := BuscarPorCorreo(usuarios, correo);
            var b' := BuscarPorCorreo(otros, correo);
            && b.Some? == b'.Some?
            && (b.Some? ==> b'.value == b.value.(estatus := estatus))
  {
    var otros := seq(|usuarios|, i requires 0 <= i < |usuarios| => usuarios[i].(estatus := estatus));
    if usuarios != [] {
      var resto := seq(|usuarios| - 1, i requires 0 <= i < |usuarios| - 1 => usuarios[1..][i].(estatus := estatus));
      assert otros[1..] == resto;
      BuscarConEstatus(usuarios[1..], correo, estatus);
    }
  }

  /** What signAccess hands to the token signer. */
  datatype SolicitudFirma = SolicitudFirma(payload: Payload, expiresIn: string)

  /** signAccess, with `JWT_EXPIRES_IN` passed in as `expiraEnv`. */
  function SignAccess(user: Usuario, expiraEnv: Option<string>): (s: SolicitudFirma)
    ensures s.payload == Payload(user.idUsuario, user.rol, Some(user.nombre))
    ensures TruthyStr(expiraEnv) ==> s.expiresIn == expiraEnv.value
    ensures !TruthyStr(expiraEnv) ==> s.expiresIn == EXPIRACION_POR_DEFECTO
  {
    SolicitudFirma(Payload(user.idUsuario, user.rol, Some(user.nombre)), OrStr(expiraEnv, EXPIRACION_POR_DEFECTO))
  }

  /** A token signed for `user` comes back, through the strategy, as the
      principal with that user's id, role and name. */
  lemma FirmaYValidacion(user: Usuario, expiraEnv: Option<string>)
    ensures Validate(SignAccess(user, expiraEnv).payload) == Principal(user.idUsuario, user.rol, Some(user.nombre))
  {
  }
}
