/**
 * The route guard of src/middleware.ts. It runs only on paths without a '.',
 * verifies the session cookie with the edge verifier first, then sends a signed-in
 * visitor of /login to the dashboard, lets public paths through, answers 401 to
 * API calls without a session and sends every other page to the login screen.
 */
module Middleware {
  import opened Common
  import opened SessionEdge

  /** `isPublicPath(pathname)` */
  predicate IsPublicPath(pathname: string) {
    || pathname == "/login"
    || StartsWith(pathname, "/api/auth/")
    || pathname == "/api/invoices/recurring/process"
    || StartsWith(pathname, "/_next/")
    || StartsWith(pathname, "/favicon")
    || pathname == "/robots.txt"
    || pathname == "/sitemap.xml"
  }

  /** The guard's answers; `Failed` is the error when the verifier's promise rejects. */
  datatype Decision = RedirectToDashboard | PassThrough | Unauthorized | RedirectToLogin(next: string) | Failed

  /** `config.matcher` `/((?!.*\\.).*)`: the guard runs only on paths with no '.' in them. */
  predicate Matched(pathname: string) {
    '.' !in pathname
  }

  /** `middleware(request)` once the matcher has selected the path. */
  function Route(pathname: string, search: string, session: EdgeResult): Decision {
    if session.EdgeThrew? then Failed
    else if pathname == "/login" && session.EdgeAccepted? then RedirectToDashboard
    else if IsPublicPath(pathname) then PassThrough
    else if !session.EdgeAccepted? then
      if StartsWith(pathname, "/api/") then Unauthorized else RedirectToLogin(pathname + search)
    else PassThrough
  }

  /** The whole guard: paths the matcher skips pass untouched. */
  function Guard(pathname: string, search: string, session: EdgeResult): Decision {
    if !Matched(pathname) then PassThrough else Route(pathname, search, session)
  }

  /**
   * Without a valid session a public path, or a path the matcher skips, gets through
   * and nothing else does; an API call is refused with 401 and a page goes to the login screen
   * carrying its own path and query.
   */
  lemma NoSessionNoEntry(pathname: string, search: string, session: EdgeResult)
    requires !session.EdgeAccepted?
    ensures Guard(pathname, search, session) == PassThrough ==> !Matched(pathname) || IsPublicPath(pathname)
    ensures !Matched(pathname) ==> Guard(pathname, search, session) == PassThrough
    ensures Matched(pathname) && !session.EdgeThrew? && IsPublicPath(pathname) ==> Guard(pathname, search, session) == PassThrough
    ensures Matched(pathname) && !session.EdgeThrew? && !IsPublicPath(pathname) ==>
      Guard(pathname, search, session) == if StartsWith(pathname, "/api/") then Unauthorized else RedirectToLogin(pathname + search)
  {
  }

  /** With a valid session every matched path passes, except /login, which goes to the dashboard. */
  lemma SessionEntry(pathname: string, search: string, session: EdgeResult)
    requires session.EdgeAccepted? && Matched(pathname)
    ensures Guard(pathname, search, session) == if pathname == "/login" then RedirectToDashboard else PassThrough
  {
  }

  /** The recurring-processing endpoint is public; the other invoice endpoints are not. */
  lemma RecurringEndpointIsPublic(search: string, session: EdgeResult)
    requires !session.EdgeThrew?
    ensures Guard("/api/invoices/recurring/process", search, session) == PassThrough
    ensures !session.EdgeAccepted? ==> Guard("/api/invoices", search, session) == Unauthorized
  {
    assert "/api/invoices"[5] != "/api/auth/"[5];
    assert "/api/invoices"[1] != "/_next/"[1] && "/api/invoices"[1] != "/favicon"[1];
    assert StartsWith("/api/invoices", "/api/");
  }

  /** A cookie whose signature `atob` cannot decode breaks every matched path, public ones too. */
  lemma UndecodableCookieFails(pathname: string, search: string)
    requires Matched(pathname)
    ensures Guard(pathname, search, EdgeThrew) == Failed
  {
  }
}
