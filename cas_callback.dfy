/**
 * The landing page of the CAS single sign-on redirect,
 * src/components/auth/CasCallback.js. The query parameters, the token
 * decode and the outcome of the profile request are parameters; the
 * navigation target and the profile path requested are returned.
 */
module CasCallback {
  import opened Common
  import opened Api
  import opened AuthContext
  import opened ProtectedRoute

  /**
   * The profile request's outcome: the body's `user` field (absent when the
   * body has none), or a rejection.
   */
  datatype ProfileFetch = Fetched(user: Option<User>) | FetchFailed(error: HttpError)

  /** The user built from the token alone: `{ _id: payload.userId, role: payload.role }`. */
  function FallbackUser(p: Payload): User {
    User(p.userId, p.role)
  }

  /**
   * The user the callback finally signs in: the fetched one, or the fallback
   * when the request failed or its `then` handler threw on a missing user.
   */
  function SignedInUser(p: Payload, fetch: ProfileFetch): (u: User)
    ensures fetch.Fetched? && fetch.user.Some? ==> u == fetch.user.value
    ensures !(fetch.Fetched? && fetch.user.Some?) ==> u.id == p.userId && u.role == p.role
  {
    if fetch.Fetched? && fetch.user.Some? then fetch.user.value else FallbackUser(p)
  }

  /** The effect, run once with the `token` and `error` query parameters. */
  method HandleCallback(session: Session, token: Option<string>, error: Option<string>,
                        decode: string -> Option<Payload>, fetch: ProfileFetch)
    returns (profileRequest: Option<string>, nav: string)
    modifies session, session.store
    ensures Truthy(error) ==>
      nav == "/login?error=cas_error" && profileRequest.None? && session.View() == old(session.View())
    ensures !Truthy(error) && !Truthy(token) ==>
      nav == "/login?error=cas_no_token" && profileRequest.None? && session.View() == old(session.View())
    ensures !Truthy(error) && Truthy(token) && DecodeToken(token.value, decode).None? ==>
      nav == "/login?error=cas_token_error" && profileRequest.None? && session.View() == old(session.View())
    ensures !Truthy(error) && Truthy(token) && DecodeToken(token.value, decode).Some? ==>
      var p := DecodeToken(token.value, decode).value;
      && profileRequest == Some("/profile/" + Stringified(p.userId))
      && nav == "/dashboard"
      && session.View() == AfterUpdateAuth(old(session.View()), SignedInUser(p, fetch), token.value)
  {
    profileRequest := None;
    if Truthy(error) {
      nav := "/login?error=cas_error";
      return;
    }
    if !Truthy(token) {
      nav := "/login?error=cas_no_token";
      return;
    }
    var payload := DecodeToken(token.value, decode);
    if payload.None? {
      nav := "/login?error=cas_token_error";
      return;
    }
    var p := payload.value;
    profileRequest := Some("/profile/" + Stringified(p.userId));
    match fetch {
      case Fetched(Some(u)) =>
        session.UpdateAuth(u, token.value);
      case Fetched(None) =>
        // updateAuth(undefined, token) stores the token, then throws on `userData._id`;
        // the promise's catch handler runs next
        session.store.SetItem(TokenKey, token.value);
        session.UpdateAuth(FallbackUser(p), token.value);
      case FetchFailed(_) =>
        session.UpdateAuth(FallbackUser(p), token.value);
    }
    nav := "/dashboard";
  }

  /** Whatever the profile request did, a decodable token signs the user in. */
  lemma CallbackSignsIn(v: SessionView, p: Payload, fetch: ProfileFetch, token: string)
    requires token != ""
    ensures Authenticated(AfterUpdateAuth(v, SignedInUser(p, fetch), token).auth)
  {
  }

  /**
   * The callback does not look at `exp`: an expired token is accepted here,
   * and the next reload's restore wipes the session it wrote.
   */
  lemma ExpiredTokenAcceptedThenWiped(v: SessionView, p: Payload, fetch: ProfileFetch, token: string,
                                      nowMs: int, decode: string -> Option<Payload>)
    requires token != ""
    requires DecodeToken(token, decode) == Some(p) && IsExpired(p.exp, nowMs)
    ensures var u := AfterUpdateAuth(v, SignedInUser(p, fetch), token);
      Authenticated(u.auth) && AfterRestore(u, nowMs, decode).auth == SignedOut
  {
    var u := AfterUpdateAuth(v, SignedInUser(p, fetch), token);
    assert Lookup(u.items, TokenKey) == Some(token);
  }

  /** When the profile request fails, a reload with an unexpired token rebuilds the same session. */
  lemma FallbackSurvivesReload(v: SessionView, p: Payload, err: HttpError, token: string,
                               nowMs: int, decode: string -> Option<Payload>)
    requires token != ""
    requires DecodeToken(token, decode) == Some(p) && !IsExpired(p.exp, nowMs)
    ensures var u := AfterUpdateAuth(v, SignedInUser(p, FetchFailed(err)), token);
      AfterRestore(u, nowMs, decode) == u.(loading := false)
  {
    RestoreAfterUpdateAuth(v, FallbackUser(p), token, nowMs, decode, p);
  }
}
