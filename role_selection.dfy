/**
 * The page that completes a Google or CAS sign-in by choosing a role,
 * src/components/auth/RoleSelection.js: where it finds the provider's user
 * data, how it validates and dispatches the submit, and which error text it
 * shows. JSON and URI decoding are partial functions supplied by the caller.
 */
module RoleSelection {
  import opened Common
  import opened Api
  import opened AuthContext
  import opened ProtectedRoute

  const OAuthDataKey := "oauthUserData"

  const InvalidDataError := "Invalid user data. Please try logging in again."
  const NoDataError := "No user data found. Please try logging in again."
  const NoRoleError := "Please select a role"
  const MissingDataError := "User data is missing. Please try logging in again."
  const LoginFailedError := "Login failed. Please try again."
  const UnknownProviderMessage := "Unknown authentication provider"

  /** The provider's user data handed over by the sign-in redirect. */
  datatype OAuthData = OAuthData(provider: Option<string>, googleId: Option<string>, casId: Option<string>,
                                 email: Option<string>, name: Option<string>, avatar: Option<string>)

  // ---------------------------------------------------------------------------
  // Finding the user data

  /** Where the effect found the data, and what it writes back to storage. */
  datatype LoadOutcome = Loaded(data: OAuthData, writeBack: Option<string>) | LoadFailed(message: string)

  /**
   * The effect's choice: a truthy `data` parameter wins and is written back
   * as the stored copy; otherwise a truthy stored copy is parsed; otherwise
   * there is nothing to load.
   */
  function Load(dataParam: Option<string>, stored: Option<string>,
                parseParam: string -> Option<OAuthData>, parseStored: string -> Option<OAuthData>,
                serialize: OAuthData -> string): (o: LoadOutcome)
    ensures Truthy(dataParam) ==>
      (o.Loaded? <==> parseParam(dataParam.value).Some?) &&
      (o.Loaded? ==> o.data == parseParam(dataParam.value).value && o.writeBack == Some(serialize(o.data)))
    ensures !Truthy(dataParam) && Truthy(stored) ==>
      (o.Loaded? <==> parseStored(stored.value).Some?) &&
      (o.Loaded? ==> o.data == parseStored(stored.value).value && o.writeBack.None?)
    ensures o.LoadFailed? ==>
      o.message == if Truthy(dataParam) || Truthy(stored) then InvalidDataError else NoDataError
    ensures !Truthy(dataParam) && !Truthy(stored) ==> o == LoadFailed(NoDataError)
  {
    if Truthy(dataParam) then
      match parseParam(dataParam.value)
      case Some(d) => Loaded(d, Some(serialize(d)))
      case None => LoadFailed(InvalidDataError)
    else if Truthy(stored) then
      match parseStored(stored.value)
      case Some(d) => Loaded(d, None)
      case None => LoadFailed(InvalidDataError)
    else LoadFailed(NoDataError)
  }

  /**
   * The copy written back is what a later visit without the parameter reads.
   * Assuming only that the stored form round-trips (`JSON.parse` of a
   * non-empty `JSON.stringify`), a visit that loaded the `data` parameter
   * leaves a stored copy, and the next visit loads the same data from it.
   */
  lemma ReloadReadsWriteBack(dataParam: Option<string>, stored: Option<string>,
                             parseParam: string -> Option<OAuthData>, parseStored: string -> Option<OAuthData>,
                             serialize: OAuthData -> string)
    requires forall d :: serialize(d) != "" && parseStored(serialize(d)) == Some(d)
    requires Truthy(dataParam) && parseParam(dataParam.value).Some?
    ensures var o := Load(dataParam, stored, parseParam, parseStored, serialize);
      && o.Loaded? && o.data == parseParam(dataParam.value).value
      && o.writeBack.Some?
      && Load(None, o.writeBack, parseParam, parseStored, serialize) == Loaded(o.data, None)
  {
    var o := Load(dataParam, stored, parseParam, parseStored, serialize);
    assert o.writeBack == Some(serialize(o.data));
    assert parseStored(serialize(o.data)) == Some(o.data);
  }

  // ---------------------------------------------------------------------------
  // Completing the sign-in

  /** The body posted to "/auth/google" or "/auth/cas". */
  datatype OAuthRequest =
    | GoogleRequest(googleId: Option<string>, email: Option<string>, name: Option<string>, avatar: string, role: string)
    | CasRequest(casId: Option<string>, email: Option<string>, name: Option<string>, role: string)

  function EndpointOf(r: OAuthRequest): string {
    match r
    case GoogleRequest(_, _, _, _, _) => "/auth/google"
    case CasRequest(_, _, _, _) => "/auth/cas"
  }

  /** The provider dispatch; no request for a provider other than "google" and "cas". */
  function RequestFor(d: OAuthData, role: string): (r: Option<OAuthRequest>)
    ensures r.None? <==> d.provider != Some("google") && d.provider != Some("cas")
    ensures r.Some? ==> r.value.role == role && r.value.email == d.email && r.value.name == d.name
    ensures r.Some? && r.value.GoogleRequest? ==>
      d.provider == Some("google") && r.value.googleId == d.googleId &&
      r.value.avatar == (if Truthy(d.avatar) then d.avatar.value else "")
    ensures r.Some? && r.value.CasRequest? ==> d.provider == Some("cas") && r.value.casId == d.casId
  {
    if d.provider == Some("google") then
      Some(GoogleRequest(d.googleId, d.email, d.name, if Truthy(d.avatar) then d.avatar.value else "", role))
    else if d.provider == Some("cas") then
      Some(CasRequest(d.casId, d.email, d.name, role))
    else None
  }

  /** `Error: ${err.response?.data?.message || err.message || "An error occurred"}`. */
  function ErrorText(err: HttpError): (text: string)
    ensures |text| > 7 && text[..7] == "Error: "
    ensures err.response.Some? && Truthy(err.response.value.message) ==> text[7..] == err.response.value.message.value
    ensures !(err.response.Some? && Truthy(err.response.value.message)) && err.message != "" ==> text[7..] == err.message
    ensures !(err.response.Some? && Truthy(err.response.value.message)) && err.message == "" ==> text[7..] == "An error occurred"
  {
    "Error: " + ServerMessageOr(err, if err.message != "" then err.message else "An error occurred")
  }

  /** True when the reply carries a body with a truthy token. */
  predicate HasToken(reply: Reply<Option<AuthResponse>>) {
    reply.Ok? && reply.data.Some? && Truthy(reply.data.value.token)
  }

  /**
   * A completed sign-in on a snapshot: the stored provider data removed,
   * then `updateAuth`, which stores the token and (when present) the user
   * id; every other stored key keeps its value.
   */
  function AfterCompletion(v: SessionView, d: AuthResponse): (r: SessionView)
    requires Truthy(d.token)
    ensures OAuthDataKey !in r.items
    ensures Lookup(r.items, TokenKey) == d.token
    ensures Lookup(r.items, UserIdKey) == if Truthy(d.id) then d.id else Lookup(v.items, UserIdKey)
    ensures forall k :: k != OAuthDataKey && k != TokenKey && k != UserIdKey ==>
      Lookup(r.items, k) == Lookup(v.items, k)
    ensures Authenticated(r.auth) && r.auth == Auth(Some(UserOf(d)), d.token) && r.loading == v.loading
  {
    AfterUpdateAuth(v.(items := v.items - {OAuthDataKey}), UserOf(d), d.token.value)
  }

  /** The page's state. */
  class RoleSelectionPage {
    var selectedRole: string
    var userData: Option<OAuthData>
    var loading: bool
    var error: string

    constructor ()
      ensures selectedRole == "" && userData.None? && !loading && error == ""
    {
      selectedRole := "";
      userData := None;
      loading := false;
      error := "";
    }

    /** A click on a role card. */
    method SelectRole(role: string)
      modifies this
      ensures selectedRole == role
      ensures userData == old(userData) && loading == old(loading) && error == old(error)
    {
      selectedRole := role;
    }

    /** The mount effect, given the `data` query parameter. */
    method LoadUserData(store: LocalStorage, dataParam: Option<string>,
                        parseParam: string -> Option<OAuthData>, parseStored: string -> Option<OAuthData>,
                        serialize: OAuthData -> string)
      modifies this, store
      ensures var o := Load(dataParam, old(store.GetItem(OAuthDataKey)), parseParam, parseStored, serialize);
        && (o.Loaded? ==> userData == Some(o.data) && error == old(error))
        && (o.LoadFailed? ==> userData == old(userData) && error == o.message)
        && store.items == if o.Loaded? && o.writeBack.Some? then old(store.items)[OAuthDataKey := o.writeBack.value]
                          else old(store.items)
      ensures selectedRole == old(selectedRole) && loading == old(loading)
    {
      var stored := store.GetItem(OAuthDataKey);
      if Truthy(dataParam) {
        var decoded := parseParam(dataParam.value);
        if decoded.Some? {
          userData := decoded;
          store.SetItem(OAuthDataKey, serialize(decoded.value));
        } else {
          error := InvalidDataError;
        }
      } else if Truthy(stored) {
        var parsed := parseStored(stored.value);
        if parsed.Some? {
          userData := parsed;
        } else {
          error := InvalidDataError;
        }
      } else {
        error := NoDataError;
      }
    }

    /** `handleSubmit` with the server's answer `reply` to the request it sends, if any. */
    method HandleSubmit(session: Session, reply: Reply<Option<AuthResponse>>)
      returns (request: Option<OAuthRequest>, nav: Option<string>)
      modifies this, session, session.store
      ensures selectedRole == old(selectedRole) && userData == old(userData)
      ensures old(selectedRole) == "" ==>
        error == NoRoleError && loading == old(loading) && request.None? && nav.None?
        && session.View() == old(session.View())
      ensures old(selectedRole) != "" && old(userData).None? ==>
        error == MissingDataError && loading == old(loading) && request.None? && nav.None?
        && session.View() == old(session.View())
      ensures old(selectedRole) != "" && old(userData).Some? ==>
        && !loading
        && request == RequestFor(old(userData).value, old(selectedRole))
        && (request.None? ==>
              error == "Error: " + UnknownProviderMessage && nav.None? && session.View() == old(session.View()))
        && (request.Some? && HasToken(reply) ==>
              error == "" && nav == Some("/dashboard")
              && session.View() == AfterCompletion(old(session.View()), reply.data.value))
        && (request.Some? && reply.Ok? && !HasToken(reply) ==>
              error == LoginFailedError && nav.None? && session.View() == old(session.View()))
        && (request.Some? && reply.Err? ==>
              error == ErrorText(reply.error) && nav.None? && session.View() == old(session.View()))
    {
      request, nav := None, None;
      if selectedRole == "" {
        error := NoRoleError;
        return;
      }
      if userData.None? {
        error := MissingDataError;
        return;
      }
      loading := true;
      error := "";
      request := RequestFor(userData.value, selectedRole);
      if request.None? {
        // the thrown Error has no response, so its own message is shown
        error := ErrorText(HttpError(None, UnknownProviderMessage));
      } else {
        match reply {
          case Ok(data) =>
            if data.Some? && Truthy(data.value.token) {
              session.store.RemoveItem(OAuthDataKey);
              session.UpdateAuth(UserOf(data.value), data.value.token.value);
              nav := Some("/dashboard");
            } else {
              error := LoginFailedError;
            }
          case Err(e) =>
            error := ErrorText(e);
        }
      }
      loading := false;
    }
  }
}
