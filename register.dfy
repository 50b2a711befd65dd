/**
 * The sign-up form of src/components/auth/Register.js: its role selector and
 * its submit handler. The server's answer is a parameter; `alert` and
 * `navigate` are returned as values.
 */
module Register {
  import opened Common
  import opened Api
  import opened AuthContext
  import Login

  const DefaultRole := "user"

  /** The values the role selector offers, in order. */
  const RoleOptions := ["user", "admin", "moderator"]

  /** The request body: name, email, password and the chosen role. */
  datatype RegisterBody = RegisterBody(name: string, email: string, password: string, role: string)

  /** A successful sign-up on a snapshot: only "token" is written, then `setAuth`. */
  function AfterRegister(v: SessionView, d: AuthResponse): (r: SessionView)
    ensures Lookup(r.items, TokenKey) == Some(Stringified(d.token))
    ensures forall k :: k != TokenKey ==> Lookup(r.items, k) == Lookup(v.items, k)
    ensures r.auth == Auth(Some(UserOf(d)), d.token) && r.loading == v.loading
  {
    SessionView(v.items[TokenKey := Stringified(d.token)], Auth(Some(UserOf(d)), d.token), v.loading)
  }

  /**
   * Unlike a login, a sign-up leaves whatever "userId" an earlier session
   * stored: the two flows agree on `auth` and on "token", and differ on
   * "userId" whenever the response's id is not the stored one.
   */
  lemma RegisterKeepsStaleUserId(v: SessionView, d: AuthResponse)
    ensures AfterRegister(v, d).auth == Login.AfterLogin(v, d).auth
    ensures Lookup(AfterRegister(v, d).items, TokenKey) == Lookup(Login.AfterLogin(v, d).items, TokenKey)
    ensures Lookup(AfterRegister(v, d).items, UserIdKey) == Lookup(v.items, UserIdKey)
    ensures Lookup(v.items, UserIdKey) != Some(Stringified(d.id)) ==>
      Lookup(AfterRegister(v, d).items, UserIdKey) != Lookup(Login.AfterLogin(v, d).items, UserIdKey)
  {
  }

  /** The form state: three text fields and the selected role. */
  class RegisterForm {
    var name: string
    var email: string
    var password: string
    var role: string

    /** Empty fields; the role starts at the first option, "user". */
    constructor ()
      ensures name == "" && email == "" && password == "" && role == DefaultRole
      ensures role == RoleOptions[0]
    {
      name, email, password := "", "", "";
      role := DefaultRole;
    }

    /** The selector's `onChange`. */
    method SelectRole(choice: string)
      modifies this
      ensures role == choice
      ensures name == old(name) && email == old(email) && password == old(password)
    {
      role := choice;
    }

    /** `handleSubmit` with the server's answer `reply`. */
    method HandleSubmit(session: Session, reply: Reply<AuthResponse>)
      returns (body: RegisterBody, nav: Option<string>, alert: Option<string>)
      modifies session, session.store
      ensures body == RegisterBody(name, email, password, role)
      ensures reply.Ok? ==>
        session.View() == AfterRegister(old(session.View()), reply.data) && nav == Some("/dashboard") && alert.None?
      ensures reply.Err? ==>
        session.View() == old(session.View()) && nav.None? && alert == Some(ServerMessageOr(reply.error, "Registration failed"))
    {
      body := RegisterBody(name, email, password, role);
      match reply
      case Ok(d) =>
        session.store.SetItem(TokenKey, Stringified(d.token));
        session.SetAuth(Auth(Some(UserOf(d)), d.token));
        nav := Some("/dashboard");
        alert := None;
      case Err(e) =>
        nav := None;
        alert := Some(ServerMessageOr(e, "Registration failed"));
    }
  }
}
