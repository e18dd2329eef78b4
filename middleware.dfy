/** The route guard that runs before every page request: it passes the request
    on, sends a signed-in user away from the sign-in and sign-up pages, or
    sends an anonymous user to the sign-in page with the original URL as callback. */
module Middleware {
  import opened Text

  datatype Decision =
    | Next
    | RedirectToDashboard
    | RedirectToSignIn(callbackUrl: string)

  const PUBLIC_PATHS: seq<string> := ["/", "/auth/signin", "/auth/signup", "/home"]

  /** `middleware(req)`: `isAuthenticated` is whether a session token was
      found, `pathname` is `req.nextUrl.pathname` and `url` is `req.url`. */
  function Route(isAuthenticated: bool, pathname: string, url: string): Decision
  {
    var isPublicPath := pathname in PUBLIC_PATHS;
    if isAuthenticated && isPublicPath && StartsWith(pathname, "/auth") then RedirectToDashboard
    else if !isAuthenticated && !isPublicPath && !StartsWith(pathname, "/api") then RedirectToSignIn(url)
    else Next
  }

  /** Public paths are matched exactly, not by prefix. */
  lemma PublicPathsAreExact(pathname: string)
    ensures pathname in PUBLIC_PATHS
        <==> pathname == "/" || pathname == "/auth/signin" || pathname == "/auth/signup" || pathname == "/home"
  {
  }

  /** A signed-in user is redirected to the dashboard exactly on the sign-in
      and sign-up pages, and passes through everywhere else. */
  lemma AuthenticatedRouting(pathname: string, url: string)
    ensures Route(true, pathname, url) == RedirectToDashboard
        <==> pathname == "/auth/signin" || pathname == "/auth/signup"
    ensures pathname != "/auth/signin" && pathname != "/auth/signup" ==> Route(true, pathname, url) == Next
  {
    assert StartsWith("/auth/signin", "/auth");
    assert StartsWith("/auth/signup", "/auth");
    assert !StartsWith("/", "/auth");
    assert "/home"[1] != "/auth"[1];
  }

  /** An anonymous request is sent to sign in, with the original URL as
      callback, exactly when its path is not public and does not start with
      "/api"; otherwise it passes through. */
  lemma AnonymousRouting(pathname: string, url: string)
    ensures Route(false, pathname, url) == RedirectToSignIn(url)
        <==> pathname !in PUBLIC_PATHS && !StartsWith(pathname, "/api")
    ensures pathname in PUBLIC_PATHS || StartsWith(pathname, "/api") ==> Route(false, pathname, url) == Next
    ensures !Route(false, pathname, url).RedirectToDashboard?
  {
  }

  /** The result is one of the three outcomes, the two redirects never both
      apply, and a sign-in redirect always carries the request URL. */
  lemma RedirectsExclusive(isAuthenticated: bool, pathname: string, url: string)
    ensures Route(isAuthenticated, pathname, url).RedirectToDashboard? ==> isAuthenticated
    ensures Route(isAuthenticated, pathname, url).RedirectToSignIn? ==> !isAuthenticated
    ensures Route(isAuthenticated, pathname, url).RedirectToSignIn? ==> Route(isAuthenticated, pathname, url).callbackUrl == url
  {
  }
}
