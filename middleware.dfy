/** The request middleware (samyoga/middleware.ts): a public-route classification that never blocks. */
module Middleware {
  import opened Text

  /** The prefixes listed as public. */
  const PublicRoutes: seq<string> := ["/", "/about", "/media", "/blog", "/contact", "/auth", "/api/auth"]

  /** `routes.some((route) => pathname.startsWith(route))`. */
  function SomePrefix(routes: seq<string>, pathname: string): (r: bool)
    ensures r <==> exists i :: 0 <= i < |routes| && StartsWith(pathname, routes[i])
  {
    if routes == [] then false
    else if StartsWith(pathname, routes[0]) then true
    else
      var r := SomePrefix(routes[1..], pathname);
      assert forall i :: 1 <= i < |routes| ==> routes[i] == routes[1..][i - 1];
      r
  }

  function IsPublicRoute(pathname: string): bool {
    SomePrefix(PublicRoutes, pathname)
  }

  /** Every listed prefix begins with "/", and "/" itself is listed: a path is public iff it starts with "/". */
  lemma PublicIffLeadingSlash(pathname: string)
    ensures IsPublicRoute(pathname) <==> |pathname| > 0 && pathname[0] == '/'
  {
    if IsPublicRoute(pathname) {
      var i :| 0 <= i < |PublicRoutes| && StartsWith(pathname, PublicRoutes[i]);
      assert PublicRoutes[i][0] == '/';
      assert pathname[..|PublicRoutes[i]|][0] == pathname[0];
    } else {
      assert !StartsWith(pathname, PublicRoutes[0]);
    }
  }

  /** Prefixes are compared as plain strings, not path segments. */
  lemma PrefixesAreNotSegments()
    ensures IsPublicRoute("/aboutus") && IsPublicRoute("/authority")
  {
    PublicIffLeadingSlash("/aboutus");
    PublicIffLeadingSlash("/authority");
  }

  /** What the middleware answers: let the request through, or redirect it. */
  datatype Decision = Next | Redirect(location: string)

  /** `middleware(req)`: both branches answer `NextResponse.next()`. */
  function Handle(pathname: string): (r: Decision)
    ensures r == Next
  {
    if IsPublicRoute(pathname) then Next else Next
  }
}
