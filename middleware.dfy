/**
 * The request middleware: every matched request without a session token is
 * served the unauthorized page in place; a signed-in user asking for that page
 * is sent home; everything else passes through.
 */
module Middleware {

  datatype Response =
    | Rewrite(path: string)   // serve another path under the same URL
    | Redirect(path: string)  // send the browser to another URL
    | Next                    // continue to the requested page

  const UnauthorizedPath := "/unauthorized"
  const HomePath := "/"

  /** The decision for a request, given whether a token was found and the URL's pathname. Without a
      token, a rewrite to the unauthorized page whatever the path (that page included); with one, a
      redirect home exactly for the unauthorized page, and otherwise pass-through. */
  function Route(hasToken: bool, pathname: string): (r: Response)
    ensures r.Rewrite? <==> !hasToken
    ensures r.Rewrite? ==> r.path == UnauthorizedPath
    ensures r.Redirect? <==> hasToken && pathname == UnauthorizedPath
    ensures r.Redirect? ==> r.path == HomePath
    ensures r == Next <==> hasToken && pathname != UnauthorizedPath
  {
    if !hasToken then Rewrite(UnauthorizedPath)
    else if pathname == UnauthorizedPath then Redirect(HomePath)
    else Next
  }

  /** Only the exact pathname is redirected: a trailing slash passes through. */
  lemma TrailingSlashPassesThrough()
    ensures Route(true, "/unauthorized/") == Next
  {
  }

  /** A redirect ends after one hop: the home page it leads to passes through. */
  lemma RedirectSettles(pathname: string)
    requires Route(true, pathname).Redirect?
    ensures Route(true, Route(true, pathname).path) == Next
  {
  }
}
