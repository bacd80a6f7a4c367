/** The guard for the sign-in page: a visitor who already holds a truthy
    `user` cookie is sent on to the map page; everyone else sees the page. */
module PublicRoute {
  import opened Wrappers
  import opened Session
  import ProtectedRoute

  function PublicRoute(user: Cookie): (r: Outcome)
    ensures r == RenderChildren || r == Redirect(MapPath)
    ensures r == Redirect(MapPath) <==> SignedIn(user)
  {
    if SignedIn(user) then Redirect(MapPath) else RenderChildren
  }

  /** Any non-empty cookie text redirects to "/map". */
  lemma NonEmptyCookieRedirects(text: string)
    requires text != ""
    ensures PublicRoute(Some(text)) == Redirect("/map")
  {
  }

  /** A missing or empty cookie shows the sign-in page. */
  lemma MissingOrEmptyCookieRenders(user: Cookie)
    requires user == None || user == Some("")
    ensures PublicRoute(user) == RenderChildren
  {
  }

  /** Every cookie value gives exactly one of the two outcomes. */
  lemma ExactlyOneOutcome(user: Cookie)
    ensures (PublicRoute(user) == RenderChildren) != (PublicRoute(user) == Redirect(MapPath))
  {
  }

  /** For every cookie value exactly one of the two guards renders its page,
      and the other sends the visitor to the page the first one guards
      (as far as the paths go: "/" for sign-in, "/map" for the map). */
  lemma GuardsComplementary(user: Cookie)
    ensures (ProtectedRoute.ProtectedRoute(user) == RenderChildren) != (PublicRoute(user) == RenderChildren)
    ensures ProtectedRoute.ProtectedRoute(user) == RenderChildren ==> PublicRoute(user) == Redirect(MapPath)
    ensures PublicRoute(user) == RenderChildren ==> ProtectedRoute.ProtectedRoute(user) == Redirect(LoginPath)
  {
  }
}
