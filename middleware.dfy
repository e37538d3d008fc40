/** The route guard of the web front end: for every request it looks at the
    path and at whether an `access_token` cookie is present, and either lets
    the request through or redirects it to the login or the home page. */
module Middleware {
  import opened Common
  import opened Text

  /** The file extensions served as static assets, without the dot. */
  const EXTENSIONES: seq<string> :=
    ["png", "jpg", "jpeg", "gif", "webp", "svg", "ico", "css", "js", "map",
     "txt", "woff", "woff2", "ttf", "eot"]

  const LOGIN := "/login"
  const HOME := "/home"

  /** What the guard answers: continue, or a redirect to another path of the
      same URL. */
  datatype Decision = Next | Redirect(pathname: string)

  /** `s` ends with a dot followed by one of `exts`. */
  function TerminaEnAlguna(s: string, exts: seq<string>): (r: bool)
    ensures r <==> exists e :: e in exts && EndsWith(s, "." + e)
  {
    if exts == [] then false
    else EndsWith(s, "." + exts[0]) || TerminaEnAlguna(s, exts[1..])
  }

  /** The asset test: the path, compared without regard to ASCII case, ends
      with a dot and one of the asset extensions. */
  function IsAsset(pathname: string): (r: bool)
    ensures r <==> exists e :: e in EXTENSIONES && EndsWith(Lower(pathname), "." + e)
  {
    TerminaEnAlguna(Lower(pathname), EXTENSIONES)
  }

  predicate IsPublic(pathname: string)
  {
    || pathname == LOGIN
    || IsPrefix("/_next", pathname)
    || IsPrefix("/api", pathname)
    || pathname == "/favicon.ico"
    || IsAsset(pathname)
  }

  /** The decision for a request; `token` is the cookie's value, if any, and
      only its truthiness matters. */
  function Decide(pathname: string, token: Option<string>): (d: Decision)
    ensures !TruthyStr(token) && !IsPublic(pathname) ==> d == Redirect(LOGIN)
    ensures TruthyStr(token) && pathname == LOGIN ==> d == Redirect(HOME)
    ensures d.Redirect? <==>
      (!TruthyStr(token) && !IsPublic(pathname)) || (TruthyStr(token) && pathname == LOGIN)
  {
    if !TruthyStr(token) && !IsPublic(pathname) then Redirect(LOGIN)
    else if TruthyStr(token) && pathname == LOGIN then Redirect(HOME)
    else Next
  }

  /** The asset test ignores ASCII case: a path and its upper-cased form are
      both assets or both not. */
  lemma AssetSinMayusculas(pathname: string)
    ensures IsAsset(Upper(pathname)) == IsAsset(pathname)
  {
    LowerUpper(pathname);
  }

  /** The extension must end the path: anything after it, such as a
      trailing slash, stops the path from being an asset. */
  lemma AssetSoloAlFinal(pathname: string)
    ensures !IsAsset(pathname + "/")
  {
    var l := Lower(pathname + "/");
    assert l[|l| - 1] == '/';
    NoTerminaEnBarra(l, EXTENSIONES);
  }

  lemma {:induction false} NoTerminaEnBarra(l: string, exts: seq<string>)
    requires |l| > 0 && l[|l| - 1] == '/'
    requires forall e :: e in exts ==> |e| > 0 && e[|e| - 1] != '/'
    ensures !TerminaEnAlguna(l, exts)
  {
    if exts != [] {
      var e := exts[0];
      assert ("." + e)[|"." + e| - 1] == e[|e| - 1];
      NoTerminaEnBarra(l, exts[1..]);
    }
  }

  /** A path without a dot is never an asset. */
  lemma SinPuntoNoAsset(pathname: string)
    requires '.' !in pathname
    ensures !IsAsset(pathname)
  {
    var l := Lower(pathname);
    forall e | e in EXTENSIONES
      ensures !EndsWith(l, "." + e)
    {
      assert ("." + e)[0] == '.';
    }
  }

  /** A path whose lower-cased form ends in a listed extension is an asset. */
  lemma ConExtension(pathname: string, e: string)
    requires e in EXTENSIONES
    requires EndsWith(Lower(pathname), "." + e)
    ensures IsAsset(pathname)
  {
  }

  /** The login page and every path under `/_next` and `/api` are public;
      the home page is not. */
  lemma Publicas()
    ensures IsPublic(LOGIN) && IsPublic("/favicon.ico")
    ensures forall p :: IsPrefix("/_next", p) || IsPrefix("/api", p) ==> IsPublic(p)
    ensures !IsPublic(HOME)
  {
    assert HOME[1] != "/api"[1];
    assert HOME[1] != "/_next"[1];
    assert '.' !in HOME by {
      assert HOME == ['/', 'h', 'o', 'm', 'e'];
    }
    SinPuntoNoAsset(HOME);
  }

  /** Following a redirect with the same cookie is never redirected again:
      there is no redirect loop. */
  lemma {:induction false} SinBucle(pathname: string, token: Option<string>)
    ensures Decide(pathname, token).Redirect? ==>
      Decide(Decide(pathname, token).pathname, token) == Next
    ensures !TruthyStr(token) ==> Decide(LOGIN, token) == Next
    ensures TruthyStr(token) ==> Decide(HOME, token) == Next
  {
    Publicas();
  }

  /** The guard never checks the token: two cookies that are both present
      (or both absent or empty) get the same decision on every path. */
  lemma SoloPresencia(pathname: string, t1: Option<string>, t2: Option<string>)
    requires TruthyStr(t1) == TruthyStr(t2)
    ensures Decide(pathname, t1) == Decide(pathname, t2)
  {
  }
}
