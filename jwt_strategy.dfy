/** The session strategy: where the access token is read from, and the
    principal a verified token's payload becomes. Signature checking is an
    opaque function from token text to payload. */
module JwtStrategy {
  import opened Common

  /** The claims of an access token. */
  datatype Payload = Payload(sub: int, role: string, nombre: Option<string>)

  /** What a request carries as `req.user` once the token is accepted. */
  datatype Principal = Principal(userId: int, role: string, nombre: Option<string>)

  /** The two extractors, the `access_token` cookie and then the bearer
      header, are tried in order and the first truthy token is taken. */
  function ExtraerToken(cookie: Option<string>, bearer: Option<string>): (r: Option<string>)
    ensures TruthyStr(cookie) ==> r == cookie
    ensures !TruthyStr(cookie) && TruthyStr(bearer) ==> r == bearer
    ensures !TruthyStr(cookie) && !TruthyStr(bearer) ==> r == None
  {
    if TruthyStr(cookie) then cookie
    else if TruthyStr(bearer) then bearer
    else None
  }

  /** validate: the payload mapped field by field; it accepts every payload. */
  function Validate(p: Payload): (u: Principal)
    ensures u.userId == p.sub && u.role == p.role && u.nombre == p.nombre
  {
    Principal(p.sub, p.role, p.nombre)
  }

  /** The whole strategy: extract, verify with `verificar`, validate. `None`
      is a request the strategy rejects. */
  function Autenticar(cookie: Option<string>, bearer: Option<string>,
                      verificar: string -> Option<Payload>): (r: Option<Principal>)
    ensures r.Some? <==> ExtraerToken(cookie, bearer).Some? && verificar(ExtraerToken(cookie, bearer).value).Some?
    ensures r.Some? ==> r.value == Validate(verificar(ExtraerToken(cookie, bearer).value).value)
  {
    var token := ExtraerToken(cookie, bearer);
    if token.None? then None
    else
      var p := verificar(token.value);
      if p.None? then None else Some(Validate(p.value))
  }

  /** A present but unverifiable cookie token is not backed up by the bearer
      header: only the first truthy token is ever verified. */
  lemma CookieInvalidaOculta(cookie: Option<string>, bearer: Option<string>,
                             verificar: string -> Option<Payload>)
    requires TruthyStr(cookie) && verificar(cookie.value).None?
    ensures Autenticar(cookie, bearer, verificar).None?
  {
  }

  /** An empty or missing cookie falls back to the bearer header. */
  lemma SinCookieUsaBearer(cookie: Option<string>, bearer: Option<string>,
                           verificar: string -> Option<Payload>)
    requires !TruthyStr(cookie)
    ensures Autenticar(cookie, bearer, verificar) == Autenticar(None, bearer, verificar)
  {
  }
}
