/**
 * `src/middleware.ts`: the route guard run before every admin page and
 * admin API request. It only looks at whether an `admin-token` cookie is
 * present; the cookie's value is never verified here.
 */
module RouteGuard {
  import opened Common

  datatype Decision = Next | Redirect(location: string) | Unauthorized

  const LoginPath: string := "/admin/login"

  /** `config.matcher`: `/admin/:path*` and `/api/admin/:path*`. */
  predicate Matched(path: string) {
    path == "/admin" || IsPrefix("/admin/", path) || path == "/api/admin" || IsPrefix("/api/admin/", path)
  }

  /**
   * `middleware(request)`: the login page always passes; without a truthy
   * cookie, pages under `/admin` are redirected to the login page and paths
   * under `/api/admin` get a 401 JSON error; everything else passes.
   */
  function Middleware(path: string, cookie: Option<string>): (d: Decision)
    ensures path == LoginPath ==> d == Next
    ensures d.Redirect? <==> path != LoginPath && IsPrefix("/admin", path) && !Truthy(cookie)
    ensures d.Redirect? ==> d.location == LoginPath
    ensures d.Unauthorized? <==> IsPrefix("/api/admin", path) && !Truthy(cookie)
    ensures Truthy(cookie) ==> d == Next
  {
    if path == LoginPath then
      assert LoginPath[..10][2] != "/api/admin"[2];
      Next
    else if IsPrefix("/admin", path) || IsPrefix("/api/admin", path) then
      if !Truthy(cookie) && IsPrefix("/admin", path) then Redirect(LoginPath)
      else if !Truthy(cookie) && IsPrefix("/api/admin", path) then Unauthorized
      else Next
    else Next
  }

  /** The middleware as deployed: requests outside the matcher never reach it. */
  function Guard(path: string, cookie: Option<string>): (d: Decision)
    ensures !Matched(path) ==> d == Next
    ensures d != Next ==> Matched(path) && !Truthy(cookie)
  {
    if Matched(path) then Middleware(path, cookie) else Next
  }

  /** Only presence matters: any two non-empty cookie values are treated alike. */
  lemma CookieValueIgnored(path: string, c1: string, c2: string)
    requires c1 != "" && c2 != ""
    ensures Guard(path, Some(c1)) == Guard(path, Some(c2)) == Next
  {
  }

  /** An empty cookie value counts as no cookie at all. */
  lemma EmptyCookieIsMissing(path: string)
    ensures Guard(path, Some("")) == Guard(path, None)
  {
  }

  /** Every matched path other than the login page is protected. */
  lemma MatchedPathsProtected(path: string)
    requires Matched(path) && path != LoginPath
    ensures Guard(path, None) != Next
  {
  }
}
