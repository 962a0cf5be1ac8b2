/** The Next.js route gate (app/middleware.ts): which requests are sent on,
    which are redirected to `/` and which to `/login`, from the pathname and
    the request's cookies. The request cookies are the same jar the browser
    keeps. */
module Middleware {
  import opened Wrappers
  import opened Text
  import opened CookieJar
  import opened AuthToken

  const AuthRoutes: set<string> := {"/login", "/register"}
  const ProtectedRoutes: set<string> := {"/"}
  const AccessTokenCookie := "accessToken"

  datatype Response = Next | Redirect(location: string)

  /** `cookies.get("auth-token")?.value ?? cookies.get("accessToken")?.value`:
      `accessToken` is consulted only when there is no `auth-token` cookie at
      all; an empty `auth-token` still wins. */
  function RequestToken(jar: Jar): (t: Option<string>)
    ensures t.Some? <==> TokenCookie in Names(jar) || AccessTokenCookie in Names(jar)
    ensures TokenCookie in Names(jar) ==> t == Lookup(jar, TokenCookie)
    ensures TokenCookie !in Names(jar) ==> t == Lookup(jar, AccessTokenCookie)
  {
    match Lookup(jar, TokenCookie)
    case Some(v) => Some(v)
    case None => Lookup(jar, AccessTokenCookie)
  }

  predicate IsAuthRoute(path: string) {
    path in AuthRoutes
  }

  /** `/`, or anything starting with the text `/dashboard` or `/app`: a plain
      prefix test, so `/application` and `/dashboardx` count. */
  predicate IsProtectedRoute(path: string) {
    path in ProtectedRoutes || StartsWith(path, "/dashboard") || StartsWith(path, "/app")
  }

  /** `middleware(request)`: an auth route with a token goes to `/`; otherwise
      a protected route without one goes to `/login`; everything else passes. */
  function Gate(path: string, jar: Jar): (r: Response)
    ensures r == Redirect("/") <==> IsAuthRoute(path) && Truthy(RequestToken(jar))
    ensures r == Redirect("/login") <==> IsProtectedRoute(path) && !Truthy(RequestToken(jar))
    ensures r.Redirect? ==> r.location in {"/", "/login"}
  {
    AuthNotProtected(path);
    var token := RequestToken(jar);
    if IsAuthRoute(path) && Truthy(token) then Redirect("/")
    else if IsProtectedRoute(path) && !Truthy(token) then Redirect("/login")
    else Next
  }

  /** No path is both an auth route and a protected one. */
  lemma AuthNotProtected(path: string)
    ensures IsAuthRoute(path) ==> !IsProtectedRoute(path)
  {
    if path == "/login" {
      assert path[1] == 'l';
    } else if path == "/register" {
      assert path[1] == 'r';
    }
  }

  /** An empty `auth-token` cookie hides a non-empty `accessToken` one: the
      request counts as carrying no token. */
  lemma EmptyAuthTokenShadows(jar: Jar)
    requires Lookup(jar, TokenCookie) == Some("")
    ensures !Truthy(RequestToken(jar))
    ensures Gate("/", jar) == Redirect("/login")
  {
    assert "/" in ProtectedRoutes;
  }

  /** Without an `auth-token` cookie a non-empty `accessToken` cookie is the token. */
  lemma AccessTokenFallback(jar: Jar, v: string)
    requires TokenCookie !in Names(jar) && Lookup(jar, AccessTokenCookie) == Some(v) && v != []
    ensures Truthy(RequestToken(jar))
    ensures Gate("/", jar) == Next
    ensures Gate("/login", jar) == Redirect("/")
  {
    AuthNotProtected("/");
    assert "/login" in AuthRoutes;
  }

  /** No redirect loop: under the same cookies, the target of a redirect is
      itself let through. */
  lemma NoRedirectLoop(path: string, jar: Jar)
    ensures Gate(path, jar).Redirect? ==> Gate(Gate(path, jar).location, jar) == Next
  {
    var r := Gate(path, jar);
    if r == Redirect("/") {
      AuthNotProtected("/");
      assert "/" !in AuthRoutes;
    } else if r == Redirect("/login") {
      assert "/login" in AuthRoutes;
      assert "/login"[1] == 'l';
    }
  }

  /** `config.matcher`: `/`, `/login`, `/register`, and `/dashboard` or `/app`
      followed by zero or more path segments. */
  predicate Matched(path: string) {
    path in {"/", "/login", "/register"} || UnderSegment(path, "/dashboard") || UnderSegment(path, "/app")
  }

  /** `path` is `base` or lies in a segment below it (`base/...`). */
  predicate UnderSegment(path: string, base: string) {
    path == base || StartsWith(path, base + "/")
  }

  /** What a request meets: the gate runs only on matched paths. */
  function Handle(path: string, jar: Jar): (r: Response)
    ensures !Matched(path) ==> r == Next
    ensures Matched(path) ==> r == Gate(path, jar)
  {
    if Matched(path) then Gate(path, jar) else Next
  }

  lemma PrefixOfSegment(path: string, base: string)
    requires UnderSegment(path, base)
    ensures StartsWith(path, base)
  {
    if path != base {
      assert path[..|base|] == (path[..|base| + 1])[..|base|];
    }
  }

  /** On the paths the matcher lets through, the prefix test agrees with a
      path-segment test: `/application` or `/dashboardx` never reach the gate. */
  lemma MatchedProtection(path: string)
    requires Matched(path)
    ensures IsProtectedRoute(path) <==> path == "/" || UnderSegment(path, "/dashboard") || UnderSegment(path, "/app")
  {
    if UnderSegment(path, "/dashboard") {
      PrefixOfSegment(path, "/dashboard");
    } else if UnderSegment(path, "/app") {
      PrefixOfSegment(path, "/app");
    } else {
      assert path in {"/", "/login", "/register"};
      if path == "/login" {
        assert path[1] == 'l';
      } else if path == "/register" {
        assert path[1] == 'r';
      }
    }
  }

  /** The matcher does not send `/application` to the gate, although the
      gate's own prefix test would protect it. */
  lemma PrefixOnlyPaths()
    ensures IsProtectedRoute("/application") && !Matched("/application")
    ensures IsProtectedRoute("/dashboardx") && !Matched("/dashboardx")
  {
    assert "/application"[..4] == "/app";
    assert "/application"[4] == 'l';
    assert "/dashboardx"[..10] == "/dashboard";
    assert "/dashboardx"[10] == 'x';
  }
}
