/** `ProtectedRoute`: renders its children or redirects to the entry page,
    from the stored token, the stored role and the route's required role. */
module ProtectedRoute {
  import opened Js

  datatype Outcome = Render | Redirect(to: string)

  /** A stored item is truthy when present and non-empty. */
  predicate Truthy(item: Option<string>) {
    item.Some? && item.value != ""
  }

  /** `token` and `role` are what storage holds (`None` for null);
      `requiredRole` is the route's prop (`None` for undefined). */
  function Guard(token: Option<string>, role: Option<string>, requiredRole: Option<string>): (r: Outcome)
    ensures r.Redirect? ==> r.to == "/"
    ensures r == Render <==> Truthy(token) && (!Truthy(requiredRole) || role == requiredRole)
  {
    if !Truthy(token) then Redirect("/")
    else if Truthy(requiredRole) && role != requiredRole then Redirect("/")
    else Render
  }

  /** No token, absent or empty, redirects whatever the roles. */
  lemma NoTokenRedirects(token: Option<string>, role: Option<string>, requiredRole: Option<string>)
    requires token.None? || token.value == ""
    ensures Guard(token, role, requiredRole) == Redirect("/")
  {
  }

  /** With a token, a required role other than the stored one redirects,
      also when no role is stored. */
  lemma WrongRoleRedirects(token: string, role: Option<string>, requiredRole: string)
    requires token != "" && requiredRole != ""
    requires role != Some(requiredRole)
    ensures Guard(Some(token), role, Some(requiredRole)) == Redirect("/")
  {
  }

  /** With a token and no (or an empty) required role, the children render
      whatever the stored role. */
  lemma NoRequiredRoleRenders(token: string, role: Option<string>, requiredRole: Option<string>)
    requires token != ""
    requires requiredRole.None? || requiredRole.value == ""
    ensures Guard(Some(token), role, requiredRole) == Render
  {
  }

  /** With a token and the stored role equal to the required one, the children
      render. */
  lemma MatchingRoleRenders(token: string, role: string)
    requires token != ""
    ensures Guard(Some(token), Some(role), Some(role)) == Render
  {
  }
}
