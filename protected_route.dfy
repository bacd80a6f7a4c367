/** The guard for the signed-in-only page: render the page when the `user`
    cookie is truthy, send the visitor to the sign-in page otherwise. */
module ProtectedRoute {
  import opened Wrappers
  import opened Session

  function ProtectedRoute(user: Cookie): (r: Outcome)
    ensures r == RenderChildren || r == Redirect(LoginPath)
    ensures r == RenderChildren <==> SignedIn(user)
  {
    if !SignedIn(user) then Redirect(LoginPath) else RenderChildren
  }

  /** No cookie at all: redirect to "/". */
  lemma MissingCookieRedirects()
    ensures ProtectedRoute(None) == Redirect("/")
  {
  }

  /** An empty cookie is falsy, so it is treated like a missing one. */
  lemma EmptyCookieRedirects()
    ensures ProtectedRoute(Some("")) == Redirect("/")
  {
  }

  /** The cookie's content is never inspected: any non-empty text lets the
      visitor in. */
  lemma AnyNonEmptyCookieRenders(text: string)
    requires text != ""
    ensures ProtectedRoute(Some(text)) == RenderChildren
  {
  }

  /** Every cookie value gives exactly one of the two outcomes. */
  lemma ExactlyOneOutcome(user: Cookie)
    ensures (ProtectedRoute(user) == RenderChildren) != (ProtectedRoute(user) == Redirect(LoginPath))
  {
  }
}
