/** The `user` cookie as the route guards read it, and what a guard renders. */
module Session {
  import opened Wrappers

  /** `Cookies.get("user")`: the cookie's text, or `undefined` (None) when no
      such cookie is set. */
  type Cookie = Option<string>

  /** JavaScript truthiness of the cookie value: `undefined` and the empty
      string are falsy, every other string is truthy. */
  predicate SignedIn(user: Cookie) {
    user.Some? && user.value != ""
  }

  /** A guard either returns its `children` or a `<Navigate to=... />`. */
  datatype Outcome = RenderChildren | Redirect(to: string)

  /** Path of the sign-in page as ProtectedRoute names it. */
  const LoginPath: string := "/"

  /** Path of the map page as PublicRoute names it. */
  const MapPath: string := "/map"
}
