/** The route guard run in front of every matched page request: pass it on,
    or send it to the sign-in page with a callback to where it was going. */
module Middleware {

  const PublicRoutes: seq<string> := ["/", "/signin", "/signup"]
  const AuthRoutes: seq<string> := ["/admin"]

  /** The fields of `request.nextUrl` and the cookie jar the guard reads. */
  datatype Request = Request(origin: string, pathname: string, search: string, cookies: map<string, string>)

  datatype Decision = Next | Redirect(location: string)

  /** `request.cookies.get('session')?.value` is truthy: present and non-empty. */
  predicate HasToken(cookies: map<string, string>) {
    "session" in cookies && cookies["session"] != ""
  }

  /** `new URL('/signin?callbackUrl=' + encodeURIComponent(pathname + search), request.url)`;
      `encode` stands for `encodeURIComponent`. */
  function SignInUrl(req: Request, encode: string -> string): string {
    req.origin + "/signin?callbackUrl=" + encode(req.pathname + req.search)
  }

  /** The `middleware` function: the auth-route check, then the public-route check. */
  function Decide(req: Request, encode: string -> string): Decision {
    var isPublicRoute := req.pathname in PublicRoutes;
    var isAuthRoute := req.pathname in AuthRoutes;
    var token := HasToken(req.cookies);
    if isAuthRoute && !token then Redirect(SignInUrl(req, encode))
    else if !isPublicRoute && !token then Redirect(SignInUrl(req, encode))
    else Next
  }

  /** A request passes exactly when it has a session token or asks for one of
      the three public paths, compared as whole strings. */
  lemma PassIff(req: Request, encode: string -> string)
    ensures Decide(req, encode) == Next <==>
      HasToken(req.cookies) || req.pathname == "/" || req.pathname == "/signin" || req.pathname == "/signup"
  {
  }

  /** Every refusal is the same redirect to the sign-in page. */
  lemma RedirectTarget(req: Request, encode: string -> string)
    ensures Decide(req, encode).Redirect? ==>
      Decide(req, encode).location == req.origin + "/signin?callbackUrl=" + encode(req.pathname + req.search)
  {
  }

  /** The guard with the auth-route branch dropped. */
  function PublicOnlyGuard(req: Request, encode: string -> string): Decision {
    if req.pathname !in PublicRoutes && !HasToken(req.cookies) then Redirect(SignInUrl(req, encode)) else Next
  }

  /** No auth route is public, so the first branch never decides anything the second would not. */
  lemma AuthBranchSubsumed(req: Request, encode: string -> string)
    ensures forall r :: r in AuthRoutes ==> r !in PublicRoutes
    ensures Decide(req, encode) == PublicOnlyGuard(req, encode)
  {
  }

  /** Membership is exact: a page below `/admin` is not an auth route, yet it is
      still refused without a token; an empty cookie is no token. */
  lemma ExactMembership(origin: string, search: string, encode: string -> string)
    ensures "/admin/texts" !in AuthRoutes
    ensures Decide(Request(origin, "/admin/texts", search, map[]), encode).Redirect?
    ensures Decide(Request(origin, "/admin", search, map["session" := ""]), encode).Redirect?
    ensures Decide(Request(origin, "/admin", search, map["session" := "t"]), encode) == Next
    ensures Decide(Request(origin, "/signin", search, map[]), encode) == Next
  {
    assert "/admin/texts" != "/admin";
  }

  predicate StartsWith(s: string, prefix: string) {
    |prefix| <= |s| && s[..|prefix|] == prefix
  }

  /** `config.matcher`, `/((?!api|_next/static|_next/image|favicon.ico).*)`:
      after the leading '/', the path must not begin with one of the excluded
      words; the '.' of `favicon.ico` is the regular-expression wildcard. */
  predicate Matched(pathname: string) {
    && StartsWith(pathname, "/")
    && var rest := pathname[1..];
      && !StartsWith(rest, "api")
      && !StartsWith(rest, "_next/static")
      && !StartsWith(rest, "_next/image")
      && !(StartsWith(rest, "favicon") && |rest| >= 11 && rest[8..11] == "ico")
  }

  /** What the framework does with a request: the guard runs only on matched paths. */
  function Handle(req: Request, encode: string -> string): Decision {
    if Matched(req.pathname) then Decide(req, encode) else Next
  }

  /** A handled request is redirected only if it is matched, not public and carries no token. */
  lemma HandleRedirectsIff(req: Request, encode: string -> string)
    ensures Handle(req, encode).Redirect? <==>
      Matched(req.pathname) && !HasToken(req.cookies) && req.pathname !in PublicRoutes
  {
  }

  /** The matcher is a prefix test: API routes, and any page whose name merely
      begins with "api", bypass the guard. */
  lemma ApiBypassesGuard(req: Request, encode: string -> string)
    requires StartsWith(req.pathname, "/api")
    ensures Handle(req, encode) == Next
  {
    assert req.pathname[1..][..3] == req.pathname[..4][1..];
  }

  lemma MatcherExamples()
    ensures Matched("/admin") && Matched("/admin/texts") && Matched("/")
    ensures !Matched("/api/generate-audio") && !Matched("/apiary")
    ensures !Matched("/_next/static/chunk.js") && !Matched("/favicon.ico") && !Matched("/faviconXico")
  {
    AdminPagesMatched();
    ApiPathsExcluded();
    AssetPathsExcluded();
  }

  lemma AdminPagesMatched()
    ensures Matched("/admin") && Matched("/admin/texts") && Matched("/")
  {
    assert "/admin"[1..] == "admin";
    assert "admin"[..3] == "adm" && "adm"[2] != "api"[2];
    assert "/admin/texts"[1..] == "admin/texts";
    assert "admin/texts"[..3] == "adm";
    assert "admin/texts"[..11] == "admin/texts" && "admin/texts"[0] != "_next/image"[0];
    assert "admin/texts"[..7] == "admin/t" && "admin/t"[0] != "favicon"[0];
  }

  lemma ApiPathsExcluded()
    ensures !Matched("/api/generate-audio") && !Matched("/apiary")
  {
    assert "/api/generate-audio"[1..][..3] == "api";
    assert "/apiary"[1..][..3] == "api";
  }

  lemma AssetPathsExcluded()
    ensures !Matched("/_next/static/chunk.js") && !Matched("/favicon.ico") && !Matched("/faviconXico")
  {
    assert "/_next/static/chunk.js"[1..][..12] == "_next/static";
    assert "/favicon.ico"[1..][..7] == "favicon";
    assert "/faviconXico"[1..][..7] == "favicon";
  }
}
