/** The request gate of middleware.ts: a path under a protected prefix needs
    a non-empty `sb-access-token` cookie, otherwise the request is redirected
    to the sign-in page. The token's value is never inspected. */
module Middleware {
  import opened Strings

  /** `protectedRoutes`. */
  const ProtectedRoutes: seq<string> := ["/admin", "/driver/dashboard", "/client/dashboard"]

  const TokenCookie: string := "sb-access-token"

  /** Where an unauthenticated request is sent (resolved against the
      request's own URL). */
  const UnauthorizedTarget: string := "/auth?error=unauthorized"

  datatype Request = Request(pathname: string, cookies: map<string, string>)

  datatype Response = Next | Redirect(location: string)

  /** `routes.some(route => path.startsWith(route))`. */
  function AnyPrefix(routes: seq<string>, path: string): (r: bool)
    ensures r <==> exists i :: 0 <= i < |routes| && StartsWith(path, routes[i])
    decreases |routes|
  {
    if |routes| == 0 then false
    else StartsWith(path, routes[0]) || AnyPrefix(routes[1..], path)
  }

  predicate IsProtected(path: string)
  {
    AnyPrefix(ProtectedRoutes, path)
  }

  /** The cookie is present and non-empty (`!token` is false). */
  predicate HasToken(cookies: map<string, string>)
  {
    TokenCookie in cookies && cookies[TokenCookie] != ""
  }

  /** `middleware`: pass or redirect. */
  function Decide(req: Request): (r: Response)
    ensures r == Next <==> !IsProtected(req.pathname) || HasToken(req.cookies)
    ensures r.Redirect? ==> r.location == UnauthorizedTarget
  {
    if !AnyPrefix(ProtectedRoutes, req.pathname) then Next
    else
      var token := if TokenCookie in req.cookies then req.cookies[TokenCookie] else "";
      if token == "" then Redirect(UnauthorizedTarget)
      else Next
  }

  /** The decision depends only on the path and on whether a non-empty token
      is present, not on the token's value or any other cookie. */
  lemma DecisionDependsOnPathAndPresence(a: Request, b: Request)
    requires a.pathname == b.pathname
    requires HasToken(a.cookies) == HasToken(b.cookies)
    ensures Decide(a) == Decide(b)
  {
  }

  /** Protection is a plain prefix test: `/administrator` is protected too,
      while `/driver` and `/client` themselves are not. */
  lemma PrefixTestExamples()
    ensures IsProtected("/administrator")
    ensures IsProtected("/admin/orders")
    ensures !IsProtected("/driver")
    ensures !IsProtected("/client/home")
  {
    assert StartsWith("/administrator", ProtectedRoutes[0]) by {
      assert "/administrator"[..6] == "/admin";
    }
    assert StartsWith("/admin/orders", ProtectedRoutes[0]) by {
      assert "/admin/orders"[..6] == "/admin";
    }
    DiffersAt("/driver", ProtectedRoutes[0], 1);
    assert |"/driver"| < |ProtectedRoutes[1]|;
    assert |"/driver"| < |ProtectedRoutes[2]|;
    DiffersAt("/client/home", ProtectedRoutes[0], 1);
    DiffersAt("/client/home", ProtectedRoutes[1], 1);
    assert |"/client/home"| < |ProtectedRoutes[2]|;
  }

  /** Two strings that differ at a position within both do not start with
      one another. */
  lemma DiffersAt(s: string, p: string, k: nat)
    requires k < |s| && k < |p| && s[k] != p[k]
    ensures !StartsWith(s, p)
  {
    if |p| <= |s| {
      assert s[..|p|][k] == s[k];
    }
  }

  /** A path under a protected prefix is protected whatever follows it. */
  lemma {:induction false} ProtectedUnderPrefix(route: string, rest: string)
    requires route in ProtectedRoutes
    ensures IsProtected(route + rest)
  {
    var i :| 0 <= i < |ProtectedRoutes| && ProtectedRoutes[i] == route;
    assert (route + rest)[..|route|] == route;
    assert StartsWith(route + rest, ProtectedRoutes[i]);
  }
}
