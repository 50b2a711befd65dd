/**
 * The submit handler of src/components/auth/Login.js. The server's answer is
 * a parameter; `alert` and `navigate` are returned as values.
 */
module Login {
  import opened Common
  import opened Api
  import opened AuthContext

  /** The request body: only the two credentials. */
  datatype LoginBody = LoginBody(email: string, password: string)

  /**
   * A successful login on a snapshot: both keys written, even with a missing
   * field (which `setItem` stores as "undefined"), then `setAuth`.
   */
  function AfterLogin(v: SessionView, d: AuthResponse): (r: SessionView)
    ensures Lookup(r.items, TokenKey) == Some(Stringified(d.token))
    ensures Lookup(r.items, UserIdKey) == Some(Stringified(d.id))
    ensures SameOtherKeys(r.items, v.items)
    ensures r.auth.user == Some(UserOf(d)) && r.auth.token == d.token && r.loading == v.loading
  {
    SessionView(v.items[TokenKey := Stringified(d.token)][UserIdKey := Stringified(d.id)],
                Auth(Some(UserOf(d)), d.token), v.loading)
  }

  /** When the response has both an id and a token, logging in is exactly `updateAuth`. */
  lemma LoginIsUpdateAuth(v: SessionView, d: AuthResponse)
    requires Truthy(d.id) && Truthy(d.token)
    ensures AfterLogin(v, d) == AfterUpdateAuth(v, UserOf(d), d.token.value)
  {
  }

  /** A response without `_id` leaves the literal text "undefined" under "userId". */
  lemma LoginWithoutIdStoresUndefined(v: SessionView, d: AuthResponse)
    requires d.id.None?
    ensures Lookup(AfterLogin(v, d).items, UserIdKey) == Some("undefined")
  {
  }

  /** `handleSubmit` with the server's answer `reply`. */
  method HandleSubmit(session: Session, email: string, password: string, reply: Reply<AuthResponse>)
    returns (body: LoginBody, nav: Option<string>, alert: Option<string>)
    modifies session, session.store
    ensures body == LoginBody(email, password)
    ensures reply.Ok? ==>
      session.View() == AfterLogin(old(session.View()), reply.data) && nav == Some("/dashboard") && alert.None?
    ensures reply.Err? ==>
      session.View() == old(session.View()) && nav.None? && alert == Some(ServerMessageOr(reply.error, "Login failed"))
  {
    body := LoginBody(email, password);
    match reply
    case Ok(d) =>
      session.store.SetItem(TokenKey, Stringified(d.token));
      session.store.SetItem(UserIdKey, Stringified(d.id));
      session.SetAuth(Auth(Some(UserOf(d)), d.token));
      nav := Some("/dashboard");
      alert := None;
    case Err(e) =>
      nav := None;
      alert := Some(ServerMessageOr(e, "Login failed"));
  }

  /**
   * The whole round of a submit: the answer first passes the response
   * interceptor, then reaches `handleSubmit`. A 401 therefore arrives with
   * the stored session already removed, and the handler's catch adds its
   * alert on top. On the login page itself the interceptor does not redirect.
   */
  method SubmitThroughInterceptor(session: Session, pathname: string, email: string, password: string,
                                  reply: Reply<AuthResponse>)
    returns (nav: Option<string>, redirect: Option<string>, alert: Option<string>)
    modifies session, session.store
    ensures IsUnauthorized(reply) ==>
      && session.View() == old(session.View()).(items := old(session.store.items) - {TokenKey, UserIdKey})
      && TokenKey !in session.store.items && UserIdKey !in session.store.items
      && nav.None? && alert == Some(ServerMessageOr(reply.error, "Login failed"))
    ensures redirect == if IsUnauthorized(reply) && pathname != "/login" && pathname != "/register" then Some("/login") else None
    ensures !IsUnauthorized(reply) && reply.Ok? ==>
      session.View() == AfterLogin(old(session.View()), reply.data) && nav == Some("/dashboard") && alert.None?
    ensures !IsUnauthorized(reply) && reply.Err? ==>
      session.View() == old(session.View()) && nav.None? && alert == Some(ServerMessageOr(reply.error, "Login failed"))
  {
    var passed;
    passed, redirect := InterceptResponse(session.store, pathname, reply);
    var body;
    body, nav, alert := HandleSubmit(session, email, password, passed);
  }
}
