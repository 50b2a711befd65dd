/**
 * The shared HTTP client of src/utils/api.js: its base URL, the request
 * interceptor that attaches the stored token as a Bearer credential
 * (section 2.1 of RFC 6750), and the response interceptor that wipes the
 * stored session when the server answers 401 Unauthorized (section 15.5.2
 * of RFC 9110). Transport itself is not modelled: a server reply is a value.
 */
module Api {
  import opened Common

  const DefaultApiBaseUrl := "http://localhost:5000"
  const AuthorizationHeader := "Authorization"
  const BearerPrefix := "Bearer "

  /** The `response` part of an axios error: the status and the server's `data.message`. */
  datatype ErrorResponse = ErrorResponse(status: int, message: Option<string>)

  /** An axios rejection: `error.response` is absent when no answer arrived. */
  datatype HttpError = HttpError(response: Option<ErrorResponse>, message: string)

  /** What an awaited request yields: the response body, or the rejection. */
  datatype Reply<+T> = Ok(data: T) | Err(error: HttpError)

  /** `error.response?.status`. */
  function StatusOf(err: HttpError): Option<int> {
    if err.response.Some? then Some(err.response.value.status) else None
  }

  /** `err.response?.data?.message || fallback`. */
  function ServerMessageOr(err: HttpError, fallback: string): (text: string)
    ensures err.response.Some? && Truthy(err.response.value.message) ==> text == err.response.value.message.value
    ensures !(err.response.Some? && Truthy(err.response.value.message)) ==> text == fallback
  {
    if err.response.Some? && Truthy(err.response.value.message) then err.response.value.message.value else fallback
  }

  /** `${process.env.REACT_APP_API_BASE_URL || "http://localhost:5000"}/api`. */
  function BaseUrl(env: Option<string>): (url: string)
    ensures |url| >= 4 && url[|url| - 4..] == "/api"
    ensures url[..|url| - 4] == if Truthy(env) then env.value else DefaultApiBaseUrl
  {
    (if Truthy(env) then env.value else DefaultApiBaseUrl) + "/api"
  }

  /** The Authorization header value the request interceptor sets for a stored token, if any. */
  function BearerFor(token: Option<string>): (header: Option<string>)
    ensures header.Some? <==> Truthy(token)
    ensures header.Some? ==> |header.value| > |BearerPrefix| && header.value[..|BearerPrefix|] == BearerPrefix
  {
    if Truthy(token) then Some(BearerPrefix + token.value) else None
  }

  /** How a server reads the credential back out of the header (section 2.1 of RFC 6750). */
  function CredentialOf(header: string): Option<string> {
    if |header| >= |BearerPrefix| && header[..|BearerPrefix|] == BearerPrefix then Some(header[|BearerPrefix|..])
    else None
  }

  /** The header carries exactly the stored token. */
  lemma BearerRoundTrip(token: Option<string>)
    requires Truthy(token)
    ensures CredentialOf(BearerFor(token).value) == token
  {
    assert (BearerPrefix + token.value)[|BearerPrefix|..] == token.value;
  }

  /** The mutable request configuration an interceptor receives. */
  class RequestConfig {
    var headers: map<string, string>

    constructor (headers: map<string, string>)
      ensures this.headers == headers
    {
      this.headers := headers;
    }
  }

  /** The request interceptor: set `Authorization` from the stored token, or delete it. */
  method InterceptRequest(store: LocalStorage, config: RequestConfig)
    modifies config
    ensures var token := store.GetItem(TokenKey);
      config.headers == if Truthy(token) then old(config.headers)[AuthorizationHeader := BearerPrefix + token.value]
                        else old(config.headers) - {AuthorizationHeader}
    ensures forall h :: h != AuthorizationHeader ==>
      (h in config.headers <==> h in old(config.headers)) &&
      (h in config.headers ==> config.headers[h] == old(config.headers)[h])
  {
    var token := store.GetItem(TokenKey);
    if Truthy(token) {
      config.headers := config.headers[AuthorizationHeader := BearerPrefix + token.value];
    } else {
      config.headers := config.headers - {AuthorizationHeader};
    }
  }

  /** True when the failure is a 401 answer. */
  predicate IsUnauthorized<T>(outcome: Reply<T>) {
    outcome.Err? && StatusOf(outcome.error) == Some(401)
  }

  /**
   * The response interceptor. A success passes through and an error is
   * rejected again unchanged; a 401 first removes the stored session and,
   * unless the page is already "/login" or "/register", sends the browser to
   * "/login" (returned as the new location).
   */
  method InterceptResponse<T>(store: LocalStorage, pathname: string, outcome: Reply<T>)
    returns (passed: Reply<T>, redirect: Option<string>)
    modifies store
    ensures passed == outcome
    ensures store.items == if IsUnauthorized(outcome) then old(store.items) - {TokenKey, UserIdKey} else old(store.items)
    ensures redirect == if IsUnauthorized(outcome) && pathname != "/login" && pathname != "/register" then Some("/login") else None
  {
    redirect := None;
    if IsUnauthorized(outcome) {
      store.RemoveItem(TokenKey);
      store.RemoveItem(UserIdKey);
      if pathname != "/login" && pathname != "/register" {
        redirect := Some("/login");
      }
    }
    passed := outcome;
  }
}
