/** The session middleware (src/lib/supabase/middleware.ts): once the
    signed-in user has been looked up, requests for the API, the auth pages
    and the test pages go through; any other page but the home page needs a
    signed-in user and otherwise redirects to the login page. The Supabase
    lookup is a parameter: whether a user came back, and whether creating
    the client or the lookup threw. */
module Middleware {
  import opened Text

  /** The response: the request continues, or a redirect to `path` whose
      query records `redirectedFrom`. */
  datatype Outcome = PassThrough | Redirect(path: string, redirectedFrom: string)

  function LoginPath(): (p: string)
    ensures StartsWith(p, "/auth/")
  {
    "/auth/login"
  }

  /** The path prefixes let through without a user. */
  predicate Public(pathname: string) {
    StartsWith(pathname, "/api/") || StartsWith(pathname, "/auth/") || StartsWith(pathname, "/test/")
  }

  /** `updateSession(request)` for a request of `pathname`. */
  function UpdateSession(pathname: string, signedIn: bool, failed: bool): (r: Outcome)
    ensures failed ==> r == PassThrough
    ensures Public(pathname) ==> r == PassThrough
    ensures signedIn || pathname == "/" ==> r == PassThrough
    ensures !failed && !Public(pathname) && !signedIn && pathname != "/" ==> r == Redirect(LoginPath(), pathname)
  {
    if failed then PassThrough
    else if StartsWith(pathname, "/api/") then PassThrough
    else if StartsWith(pathname, "/auth/") then PassThrough
    else if StartsWith(pathname, "/test/") then PassThrough
    else if !signedIn && pathname != "/" then Redirect(LoginPath(), pathname)
    else PassThrough
  }

  /** The login page a redirect leads to is let through, signed in or not:
      a redirect is never followed by another. */
  lemma RedirectSettles(pathname: string, signedIn: bool, failed: bool, signedInAfter: bool, failedAfter: bool)
    requires UpdateSession(pathname, signedIn, failed).Redirect?
    ensures UpdateSession(UpdateSession(pathname, signedIn, failed).path, signedInAfter, failedAfter) == PassThrough
  {
  }

  /** Whether a request goes through depends on the user only outside the
      public prefixes and the home page. */
  lemma UserMattersOnlyOnPrivatePages(pathname: string)
    ensures UpdateSession(pathname, true, false) != UpdateSession(pathname, false, false)
        <==> !Public(pathname) && pathname != "/"
  {
  }
}
