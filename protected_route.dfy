/**
 * The route guard of src/components/common/ProtectedRoute.js: a chain of
 * guarded returns over the provider's `loading` flag, the `auth` state and
 * the optional `role` prop.
 */
module ProtectedRoute {
  import opened Common
  import opened AuthContext

  /** What the guard renders: the placeholder, a redirect, or its children. */
  datatype Decision = ShowLoading | RedirectTo(path: string) | RenderChildren

  /** `auth.token && auth.user`: a truthy token and a user record. */
  predicate Authenticated(auth: Auth) {
    Truthy(auth.token) && auth.user.Some?
  }

  /** True when the user's role satisfies the `role` prop (an absent or empty prop asks for nothing). */
  predicate RoleAllowed(auth: Auth, role: Option<string>) {
    !Truthy(role) || (auth.user.Some? && auth.user.value.role == role)
  }

  /** The decision chain: loading first, then authentication, then the role. */
  function Guard(loading: bool, auth: Auth, role: Option<string>): (d: Decision)
    ensures d == RenderChildren <==> !loading && Authenticated(auth) && RoleAllowed(auth, role)
    ensures loading ==> d == ShowLoading
    ensures !loading && !Authenticated(auth) ==> d == RedirectTo("/login")
    ensures !loading && Authenticated(auth) && !RoleAllowed(auth, role) ==> d == RedirectTo("/")
  {
    if loading then ShowLoading
    else if !Truthy(auth.token) || auth.user.None? then RedirectTo("/login")
    else if Truthy(role) && auth.user.value.role != role then RedirectTo("/")
    else RenderChildren
  }

  /** A signed-out session never gets past the guard, whatever role is asked for. */
  lemma SignedOutIsRedirected(role: Option<string>)
    ensures Guard(false, SignedOut, role) == RedirectTo("/login")
  {
  }

  /** Precedence: a missing session is reported before a wrong role, and loading before both. */
  lemma GuardPrecedence(auth: Auth, role: Option<string>)
    ensures Guard(true, auth, role) == ShowLoading
    ensures !Authenticated(auth) ==> Guard(false, auth, role) == RedirectTo("/login")
  {
  }
}
