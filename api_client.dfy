/**
 * The shared HTTP client's two interceptors, over the state they touch: the
 * browser's key-value session store (`localStorage`), the current location,
 * and the headers of the request being sent.
 */
module Interceptors {
  import opened Wrappers
  import opened ApiErrors
  import Strings

  /** Store key of the session token. */
  const TokenKey: string := "token"
  /** Store key of the serialised user profile. */
  const UserKey: string := "user"
  /** The header that carries the credential. */
  const AuthorizationHeader: string := "Authorization"
  const BearerPrefix: string := "Bearer "
  /** The login view's path. */
  const LoginPath: string := "/login"

  /** `localStorage.getItem("token")`, kept only when it is truthy (present and non-empty). */
  function StoredToken(store: map<string, string>): (t: Option<string>)
    ensures t.Some? <==> TokenKey in store && store[TokenKey] != ""
    ensures t.Some? ==> t.value == store[TokenKey] && t.value != ""
  {
    if TokenKey in store && store[TokenKey] != "" then Some(store[TokenKey]) else None
  }

  /** Reads the token back out of an `Authorization` value; None when it is not a bearer value. */
  function TokenOfBearer(value: string): Option<string> {
    if |BearerPrefix| <= |value| && value[..|BearerPrefix|] == BearerPrefix then
      Some(value[|BearerPrefix|..])
    else
      None
  }

  /** The header value for a token, `Bearer ${token}`: reading it back gives exactly the token. */
  function BearerValue(token: string): (v: string)
    ensures TokenOfBearer(v) == Some(token)
  {
    assert (BearerPrefix + token)[..|BearerPrefix|] == BearerPrefix;
    BearerPrefix + token
  }

  /**
   * The headers the request interceptor leaves: with a stored token the
   * credential is set (replacing any earlier one), without one the headers
   * are as they were.
   */
  function WithToken(headers: map<string, string>, store: map<string, string>): (h: map<string, string>)
    ensures StoredToken(store).Some? ==>
              AuthorizationHeader in h && TokenOfBearer(h[AuthorizationHeader]) == StoredToken(store)
    ensures StoredToken(store).None? ==> h == headers
    ensures h.Keys == headers.Keys + (if StoredToken(store).Some? then {AuthorizationHeader} else {})
    ensures forall k :: k in headers && k != AuthorizationHeader ==> h[k] == headers[k]
  {
    match StoredToken(store)
    case Some(t) =>
      headers[AuthorizationHeader := BearerValue(t)]
    case None => headers
  }

  /**
   * A failure counts as an expired session when its response has status
   * 401: exactly the failures the normaliser tags UNAUTHORIZED.
   */
  predicate IsUnauthorized(e: Failure): (b: bool)
    ensures forall msgs: ErrorMessages :: b <==> HandleApiError(e, msgs).code == Some(Unauthorized)
  {
    e.response.Some? && e.response.value.status == 401
  }

  /** The store after a 401: token and profile removed, every other entry kept. */
  function ClearSession(store: map<string, string>): (s: map<string, string>)
    ensures TokenKey !in s && UserKey !in s
    ensures s.Keys == store.Keys - {TokenKey, UserKey}
    ensures forall k :: k in s ==> s[k] == store[k]
  {
    store - {TokenKey, UserKey}
  }

  /** Clearing the session twice leaves the same store as clearing it once. */
  lemma ClearSessionIdempotent(store: map<string, string>)
    ensures ClearSession(ClearSession(store)) == ClearSession(store)
  {
  }

  /**
   * The location after a 401: in a browser, a path that does not already
   * contain "/login" is sent to "/login"; otherwise nothing moves.
   */
  function PathAfterUnauthorized(pathname: string, inBrowser: bool): (p: string)
    ensures p != pathname <==> inBrowser && !Strings.Includes(pathname, LoginPath)
    ensures p != pathname ==> p == LoginPath
  {
    if inBrowser && !Strings.Includes(pathname, LoginPath) then LoginPath else pathname
  }

  /**
   * In a browser the user always ends on a path containing "/login"; outside
   * one the path never moves.
   */
  lemma PathAfterUnauthorizedLandsOnLogin(pathname: string, inBrowser: bool)
    ensures var p := PathAfterUnauthorized(pathname, inBrowser);
      && (inBrowser ==> Strings.Includes(p, LoginPath))
      && (!inBrowser ==> p == pathname)
  {
  }

  /** A second 401 does not move the location again. */
  lemma PathAfterUnauthorizedIdempotent(pathname: string, inBrowser: bool)
    ensures var p := PathAfterUnauthorized(pathname, inBrowser);
      PathAfterUnauthorized(p, inBrowser) == p
  {
  }

  /** The configuration of one outgoing request; the interceptor edits its headers in place. */
  class RequestConfig {
    var headers: map<string, string>

    constructor (headers: map<string, string>)
      ensures this.headers == headers
    {
      this.headers := headers;
    }
  }

  /**
   * The shared client: the session store and location it reads and writes,
   * whether it runs in a browser (`typeof window !== "undefined"`), and the
   * message table handed to the normaliser.
   */
  class ApiClient {
    var store: map<string, string>
    var pathname: string
    const inBrowser: bool
    const messages: ErrorMessages

    constructor (store: map<string, string>, pathname: string, inBrowser: bool, messages: ErrorMessages)
      ensures this.store == store && this.pathname == pathname
      ensures this.inBrowser == inBrowser && this.messages == messages
    {
      this.store := store;
      this.pathname := pathname;
      this.inBrowser := inBrowser;
      this.messages := messages;
    }

    /**
     * Request interceptor: attaches the stored token as a bearer credential
     * and returns the same config; neither the store nor any other header changes.
     */
    method InterceptRequest(config: RequestConfig) returns (sent: RequestConfig)
      modifies config
      ensures sent == config
      ensures config.headers == WithToken(old(config.headers), store)
    {
      var token := StoredToken(store);
      if token.Some? {
        config.headers := config.headers[AuthorizationHeader := BearerValue(token.value)];
      }
      sent := config;
    }

    /** Request interceptor, failure side: the error is rejected as it is. */
    method InterceptRequestError(e: Failure) returns (rejected: Failure)
      ensures rejected == e
    {
      rejected := e;
    }

    /** Response interceptor, success side: the response passes through, nothing changes. */
    method InterceptResponse(response: HttpResponse) returns (passed: HttpResponse)
      ensures passed == response
    {
      passed := response;
    }

    /**
     * Response interceptor, failure side: a 401 clears the session and may
     * redirect to the login view; every failure is then rejected with its
     * normalised error instead of the raw one.
     */
    method InterceptResponseError(e: Failure) returns (rejected: ApiError)
      modifies this`store, this`pathname
      ensures rejected == HandleApiError(e, messages)
      ensures store == if IsUnauthorized(e) then ClearSession(old(store)) else old(store)
      ensures pathname == if IsUnauthorized(e) then PathAfterUnauthorized(old(pathname), inBrowser)
                          else old(pathname)
    {
      if IsUnauthorized(e) {
        store := store - {TokenKey};
        store := store - {UserKey};
        if inBrowser && !Strings.Includes(pathname, LoginPath) {
          pathname := LoginPath;
        }
      }
      rejected := HandleApiError(e, messages);
    }
  }

  /**
   * Two 401 failures in a row leave the same store and location as one: the
   * second finds nothing left to clear and no redirect to make.
   */
  method UnauthorizedTwice(client: ApiClient, e1: Failure, e2: Failure)
    requires IsUnauthorized(e1) && IsUnauthorized(e2)
    modifies client
    ensures client.store == ClearSession(old(client.store))
    ensures client.pathname == PathAfterUnauthorized(old(client.pathname), client.inBrowser)
  {
    var _ := client.InterceptResponseError(e1);
    var _ := client.InterceptResponseError(e2);
    ClearSessionIdempotent(old(client.store));
    PathAfterUnauthorizedIdempotent(old(client.pathname), client.inBrowser);
  }
}
