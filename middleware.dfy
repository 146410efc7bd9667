/** The route guard run on every matched request: it reads the token
    from the `auth_token` cookie or the `authorization` header and decides
    between a redirect and letting the request through. */
module RouteGuard {
  import opened JsValues

  const ProtectedRoutes: seq<string> := ["/dashboard"]
  const AuthRoutes: seq<string> := ["/sign-in", "/sign-up"]

  /** What the guard reads from a request. Absent cookies, headers and
      query parameters are `None`. */
  datatype Request = Request(
    pathname: string,
    authCookie: Option<string>,
    authorization: Option<string>,
    redirectParam: Option<string>)

  /** `NextResponse.redirect(new URL(target, request.url))` or `NextResponse.next()`. */
  datatype Decision = Redirect(target: string) | Next

  /** `s.startsWith(prefix)` */
  predicate StartsWith(s: string, prefix: string)
  {
    |prefix| <= |s| && s[..|prefix|] == prefix
  }

  /** `s` holds `pat` at position `k`. */
  predicate OccursAt(s: string, pat: string, k: nat)
  {
    k + |pat| <= |s| && s[k..k + |pat|] == pat
  }

  /** `s.indexOf(pat, from)`, as an option. */
  function IndexOf(s: string, pat: string, from: nat): (r: Option<nat>)
    requires from <= |s|
    ensures r.Some? ==> from <= r.value && OccursAt(s, pat, r.value)
    ensures r.Some? ==> forall j | from <= j < r.value :: !OccursAt(s, pat, j)
    ensures r.None? ==> forall j | from <= j <= |s| :: !OccursAt(s, pat, j)
    decreases |s| - from
  {
    if OccursAt(s, pat, from) then Some(from)
    else if from == |s| then None
    else IndexOf(s, pat, from + 1)
  }

  /** `s.replace(pat, "")` with a string pattern: only the first occurrence
      is removed. */
  function RemoveFirst(s: string, pat: string): (r: string)
    ensures IndexOf(s, pat, 0).None? ==> r == s
    ensures IndexOf(s, pat, 0).Some? ==> |r| + |pat| == |s|
  {
    match IndexOf(s, pat, 0)
    case None => s
    case Some(k) => s[..k] + s[k + |pat|..]
  }

  /** The first occurrence, wherever it sits, is what `replace` removes. */
  lemma RemoveFirstSpec(s: string, pat: string, k: nat)
    requires OccursAt(s, pat, k)
    requires forall j | 0 <= j < k :: !OccursAt(s, pat, j)
    ensures RemoveFirst(s, pat) == s[..k] + s[k + |pat|..]
  {
    var r := IndexOf(s, pat, 0);
    assert r.Some?;
    assert !(r.value < k) && !(k < r.value);
  }

  /** A header of the usual shape yields the bare token. */
  lemma BearerHeader(t: string)
    ensures RemoveFirst("Bearer " + t, "Bearer ") == t
  {
    var s := "Bearer " + t;
    assert OccursAt(s, "Bearer ", 0);
    RemoveFirstSpec(s, "Bearer ", 0);
    assert s[7..] == t;
  }

  /** A header without "Bearer " anywhere is used whole. */
  lemma HeaderWithoutBearer(s: string)
    requires forall j | 0 <= j <= |s| :: !OccursAt(s, "Bearer ", j)
    ensures RemoveFirst(s, "Bearer ") == s
  {
  }

  /** `cookies.get('auth_token')?.value || headers.get('authorization')?.replace('Bearer ', '')` */
  function Token(req: Request): (t: Option<string>)
    ensures t.None? <==> (req.authCookie.None? || req.authCookie.value == "") && req.authorization.None?
    ensures t.Some? && req.authorization.None? ==> t == req.authCookie
  {
    if req.authCookie.Some? && req.authCookie.value != "" then req.authCookie
    else if req.authorization.Some? then Some(RemoveFirst(req.authorization.value, "Bearer "))
    else None
  }

  /** JavaScript truthiness of the token: present and non-empty. */
  function HasToken(req: Request): (r: bool)
    ensures r <==> (req.authCookie.Some? && req.authCookie.value != "") ||
                   (req.authorization.Some? && RemoveFirst(req.authorization.value, "Bearer ") != "")
  {
    Token(req).Some? && Token(req).value != ""
  }

  /** `protectedRoutes.some(route => pathname.startsWith(route))` */
  function SomePrefix(routes: seq<string>, path: string): bool
  {
    if routes == [] then false else StartsWith(path, routes[0]) || SomePrefix(routes[1..], path)
  }

  function IsProtectedRoute(path: string): (r: bool)
    ensures r <==> StartsWith(path, "/dashboard")
  {
    assert ProtectedRoutes[0] == "/dashboard" && ProtectedRoutes[1..] == [];
    assert !SomePrefix(ProtectedRoutes[1..], path);
    SomePrefix(ProtectedRoutes, path)
  }

  /** `authRoutes.includes(pathname)` */
  function IsAuthRoute(path: string): (r: bool)
    ensures r <==> path == "/sign-in" || path == "/sign-up"
  {
    path in AuthRoutes
  }

  /** `middleware(request)` */
  function Middleware(req: Request): (d: Decision)
    ensures !HasToken(req) ==> d == Next || d == Redirect("/sign-in")
    ensures HasToken(req) ==> d == Next || (d.Redirect? && IsAuthRoute(req.pathname))
  {
    if IsProtectedRoute(req.pathname) && !HasToken(req) then Redirect("/sign-in")
    else if IsAuthRoute(req.pathname) && HasToken(req) then
      Redirect(if req.redirectParam.Some? && req.redirectParam.value != "" then req.redirectParam.value
               else "/dashboard")
    else Next
  }

  /** A path is protected exactly when it starts with "/dashboard" (so
      "/dashboardX" is protected too), and an auth route exactly when it
      is "/sign-in" or "/sign-up". */
  lemma RouteClasses(path: string)
    ensures IsProtectedRoute(path) <==> StartsWith(path, "/dashboard")
    ensures IsAuthRoute(path) <==> path == "/sign-in" || path == "/sign-up"
  {
    assert ProtectedRoutes[0] == "/dashboard" && ProtectedRoutes[1..] == [];
    assert !SomePrefix(ProtectedRoutes[1..], path);
  }

  /** No path is both protected and an auth route, so the order of the two
      checks never decides an outcome. */
  lemma RouteClassesDisjoint(path: string)
    ensures !(IsProtectedRoute(path) && IsAuthRoute(path))
  {
    RouteClasses(path);
    if IsAuthRoute(path) {
      assert path[1] != "/dashboard"[1];
    }
  }

  /** A non-empty cookie wins over the header; otherwise the header, with
      its first "Bearer " removed, is the token. */
  lemma TokenSource(req: Request)
    ensures req.authCookie.Some? && req.authCookie.value != "" ==> Token(req) == req.authCookie
    ensures (req.authCookie.None? || req.authCookie.value == "") && req.authorization.Some? ==>
      Token(req) == Some(RemoveFirst(req.authorization.value, "Bearer "))
    ensures (req.authCookie.None? || req.authCookie.value == "") && req.authorization.None? ==>
      !HasToken(req)
  {
  }

  /** The guard's whole decision table. */
  lemma Decisions(req: Request)
    ensures StartsWith(req.pathname, "/dashboard") && !HasToken(req) ==>
      Middleware(req) == Redirect("/sign-in")
    ensures (req.pathname == "/sign-in" || req.pathname == "/sign-up") && HasToken(req) ==>
      Middleware(req) == Redirect(
        if req.redirectParam.Some? && req.redirectParam.value != "" then req.redirectParam.value
        else "/dashboard")
    ensures Middleware(req) == Next <==>
      !(StartsWith(req.pathname, "/dashboard") && !HasToken(req)) &&
      !((req.pathname == "/sign-in" || req.pathname == "/sign-up") && HasToken(req))
  {
    RouteClasses(req.pathname);
  }

  /** A signed-in user on a protected page, and a signed-out user on the
      sign-in page, are both let through; a redirect goes to one of the
      two fixed pages or to the `redirect` parameter. */
  lemma PassThroughCases(req: Request)
    ensures StartsWith(req.pathname, "/dashboard") && HasToken(req) ==> Middleware(req) == Next
    ensures req.pathname == "/sign-in" && !HasToken(req) ==> Middleware(req) == Next
    ensures Middleware(req).Redirect? ==>
      Middleware(req).target in {"/sign-in", "/dashboard"} ||
      (req.redirectParam.Some? && Middleware(req).target == req.redirectParam.value)
  {
    RouteClasses(req.pathname);
    RouteClassesDisjoint(req.pathname);
  }

  /** The `redirect` parameter is followed unchecked: a signed-in request
      for "/sign-in?redirect=/sign-in" is sent back to "/sign-in". The
      follow-up request carries no query, so it goes on to "/dashboard". */
  lemma SelfRedirectOneHop(req: Request)
    requires req.pathname == "/sign-in" && HasToken(req)
    requires req.redirectParam == Some("/sign-in")
    ensures Middleware(req) == Redirect("/sign-in")
    ensures Middleware(req.(redirectParam := None)) == Redirect("/dashboard")
  {
    RouteClasses(req.pathname);
    assert HasToken(req.(redirectParam := None)) by {
      assert Token(req.(redirectParam := None)) == Token(req);
    }
  }

  /** Past a leading "/", a prefix of the rest is that prefix after "/". */
  lemma SlashPrefix(path: string, p: string)
    requires StartsWith(path, "/")
    ensures StartsWith(path[1..], p) <==> StartsWith(path, "/" + p)
  {
    if StartsWith(path[1..], p) {
      assert path[..|p| + 1] == "/" + p by {
        forall k | 0 <= k < |p| + 1
          ensures path[..|p| + 1][k] == ("/" + p)[k]
        {
          if k > 0 { assert path[1..][..|p|][k - 1] == p[k - 1]; }
        }
      }
    }
    if StartsWith(path, "/" + p) {
      assert path[1..][..|p|] == p by {
        forall k | 0 <= k < |p|
          ensures path[1..][..|p|][k] == p[k]
        {
          assert path[..|p| + 1][k + 1] == ("/" + p)[k + 1];
        }
      }
    }
  }

  /** `config.matcher`: the guard runs on every path except those whose
      text after the leading "/" starts with "api", "_next/static",
      "_next/image", "favicon.ico" or "public". */
  function Matched(path: string): (m: bool)
    ensures m ==> |path| > 0 && path[0] == '/'
  {
    && StartsWith(path, "/")
    && !StartsWith(path[1..], "api")
    && !StartsWith(path[1..], "_next/static")
    && !StartsWith(path[1..], "_next/image")
    && !StartsWith(path[1..], "favicon.ico")
    && !StartsWith(path[1..], "public")
  }

  /** The matcher, read on whole paths: exactly the paths under "/" that
      are not under one of the five exempt prefixes. */
  lemma {:induction false} MatchedPaths(path: string)
    ensures Matched(path) <==>
      && |path| > 0 && path[0] == '/'
      && !StartsWith(path, "/api")
      && !StartsWith(path, "/_next/static")
      && !StartsWith(path, "/_next/image")
      && !StartsWith(path, "/favicon.ico")
      && !StartsWith(path, "/public")
  {
    if StartsWith(path, "/") {
      SlashPrefix(path, "api");
      SlashPrefix(path, "_next/static");
      SlashPrefix(path, "_next/image");
      SlashPrefix(path, "favicon.ico");
      SlashPrefix(path, "public");
    }
  }

  /** The decision a request meets: unmatched paths pass untouched. */
  function Guard(req: Request): (d: Decision)
    ensures StartsWith(req.pathname, "/api") ==> d == Next
    ensures d.Redirect? ==> d == Middleware(req)
  {
    if Matched(req.pathname) then Middleware(req) else Next
  }

  /** The matcher never exempts a protected page: every dashboard path
      without a token is sent to sign-in. */
  lemma ProtectedPathsGuarded(req: Request)
    requires StartsWith(req.pathname, "/dashboard") && !HasToken(req)
    ensures Guard(req) == Redirect("/sign-in")
  {
    var p := req.pathname;
    assert p[..10] == "/dashboard";
    assert p[1] == 'd';
    assert StartsWith(p, "/");
    RouteClasses(p);
  }
}
