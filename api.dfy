/** The transport's error classification, the session kept in browser storage, the
    `Authorization` header and the 401 handling. */
module Api {
  import opened Wrappers

  // ---- handleApiError ----

  /** The fields of an error response body the classification reads. */
  datatype ErrorBody = ErrorBody(message: Option<string>, code: Option<string>)

  datatype HttpResponse = HttpResponse(status: int, data: Option<ErrorBody>)

  /** A failed transport call: the response if one arrived, whether a request went out, and
      the error's own message. */
  datatype TransportError = TransportError(response: Option<HttpResponse>, requestSent: bool, message: string)

  datatype ApiError = ApiError(message: string, status: int, code: string, details: Option<ErrorBody>)

  /** `s || fallback` for a possibly missing string: the empty string counts as missing. */
  function OrElse(s: Option<string>, fallback: string): (r: string)
    ensures s.Some? && s.value != "" ==> r == s.value
    ensures s.None? || s.value == "" ==> r == fallback
  {
    if s.Some? && s.value != "" then s.value else fallback
  }

  const DefaultMessage := "An error occurred"
  const NetworkMessage := "Network error - please check your connection"
  const UnexpectedMessage := "An unexpected error occurred"

  function HandleApiError(e: TransportError): (r: ApiError)
    ensures e.response.Some? ==>
      var body := e.response.value.data;
      && r.status == e.response.value.status
      && r.message == OrElse(if body.Some? then body.value.message else None, DefaultMessage)
      && r.code == OrElse(if body.Some? then body.value.code else None, "UNKNOWN_ERROR")
      && r.details == body
    ensures e.response.None? && e.requestSent ==> r == ApiError(NetworkMessage, 0, "NETWORK_ERROR", None)
    ensures e.response.None? && !e.requestSent ==>
      r == ApiError(OrElse(Some(e.message), UnexpectedMessage), 0, "UNKNOWN_ERROR", None)
  {
    match e.response
    case Some(HttpResponse(status, data)) =>
      var message := if data.Some? then data.value.message else None;
      var code := if data.Some? then data.value.code else None;
      ApiError(OrElse(message, DefaultMessage), status, OrElse(code, "UNKNOWN_ERROR"), data)
    case None =>
      if e.requestSent then ApiError(NetworkMessage, 0, "NETWORK_ERROR", None)
      else ApiError(OrElse(Some(e.message), UnexpectedMessage), 0, "UNKNOWN_ERROR", None)
  }

  /** Every classified error has a message and a code; status 0 means no response arrived
      (or the response itself said 0), and the network code is reported for a request without
      a response unless the server sent that code itself. */
  lemma ClassificationShape(e: TransportError)
    ensures HandleApiError(e).message != "" && HandleApiError(e).code != ""
    ensures HandleApiError(e).status == 0 <==> e.response.None? || e.response.value.status == 0
    ensures HandleApiError(e).code == "NETWORK_ERROR" <==>
      (e.response.None? && e.requestSent) ||
      (e.response.Some? && e.response.value.data.Some? && e.response.value.data.value.code == Some("NETWORK_ERROR"))
  {
  }

  // ---- the session in browser storage ----

  const TokenKey := "authToken"
  const UserKey := "currentUser"

  /** `localStorage.getItem('authToken')`. */
  function TokenOf(storage: map<string, string>): (t: Option<string>)
    ensures t.Some? <==> TokenKey in storage
    ensures t.Some? ==> t.value == storage[TokenKey]
  {
    if TokenKey in storage then Some(storage[TokenKey]) else None
  }

  /** `!!localStorage.getItem('authToken')`. */
  predicate Authenticated(storage: map<string, string>) {
    TokenKey in storage && storage[TokenKey] != ""
  }

  /** The request interceptor's header: added only when the stored token is truthy. */
  function AuthHeaderOf(storage: map<string, string>): Option<string> {
    match TokenOf(storage)
    case Some(t) => if t != "" then Some("Bearer " + t) else None
    case None => None
  }

  lemma AuthHeaderIffAuthenticated(storage: map<string, string>)
    ensures AuthHeaderOf(storage).Some? <==> Authenticated(storage)
    ensures AuthHeaderOf(storage).Some? ==> AuthHeaderOf(storage).value == "Bearer " + storage[TokenKey]
  {
  }

  /** Storing a token makes it the one read back, and authenticates exactly when it is
      non-empty. */
  lemma SetTokenThenGet(storage: map<string, string>, token: string)
    ensures TokenOf(storage[TokenKey := token]) == Some(token)
    ensures Authenticated(storage[TokenKey := token]) <==> token != ""
    ensures forall k :: k in storage && k != TokenKey ==> storage[TokenKey := token][k] == storage[k]
  {
  }

  /** Logging out ends the session, drops the stored user and keeps every other key. */
  lemma LogoutEffect(storage: map<string, string>)
    ensures var s := storage - {TokenKey, UserKey};
      !Authenticated(s) && TokenOf(s) == None && UserKey !in s &&
      forall k :: k != TokenKey && k != UserKey ==> (k in s <==> k in storage) && (k in s ==> s[k] == storage[k])
  {
  }

  /** A 401 ends the session but keeps the stored user. */
  lemma UnauthorizedEffect(storage: map<string, string>)
    ensures var s := storage - {TokenKey};
      !Authenticated(s) && (UserKey in s <==> UserKey in storage) && (UserKey in s ==> s[UserKey] == storage[UserKey])
  {
  }

  /** `localStorage` as the session code sees it. */
  class SessionStore {
    var storage: map<string, string>

    constructor (initial: map<string, string>)
      ensures storage == initial
    {
      storage := initial;
    }

    method SetToken(token: string)
      modifies this
      ensures storage == old(storage)[TokenKey := token]
    {
      storage := storage[TokenKey := token];
    }

    method GetToken() returns (t: Option<string>)
      ensures t == TokenOf(storage)
    {
      t := if TokenKey in storage then Some(storage[TokenKey]) else None;
    }

    method IsAuthenticated() returns (b: bool)
      ensures b <==> Authenticated(storage)
    {
      var t := GetToken();
      b := t.Some? && t.value != "";
    }

    /** `setCurrentUser`, given the user already serialised. */
    method SetCurrentUser(userJson: string)
      modifies this
      ensures storage == old(storage)[UserKey := userJson]
    {
      storage := storage[UserKey := userJson];
    }

    /** `getCurrentUserFromStorage` before parsing: an empty or missing entry is `null`. */
    method GetStoredUser() returns (u: Option<string>)
      ensures u.Some? <==> UserKey in storage && storage[UserKey] != ""
      ensures u.Some? ==> u.value == storage[UserKey]
    {
      u := if UserKey in storage && storage[UserKey] != "" then Some(storage[UserKey]) else None;
    }

    method Logout()
      modifies this
      ensures storage == old(storage) - {TokenKey, UserKey}
    {
      storage := storage - {TokenKey};
      storage := storage - {UserKey};
    }

    /** The request interceptor: the `Authorization` header it adds, if any. */
    method AuthorizationHeader() returns (h: Option<string>)
      ensures h == AuthHeaderOf(storage)
    {
      var t := GetToken();
      h := if t.Some? && t.value != "" then Some("Bearer " + t.value) else None;
    }

    /** The response error interceptor: a 401 drops the token, and the error is rejected
        whatever its status. */
    method OnResponseError(e: TransportError) returns (r: Result<(), TransportError>)
      modifies this
      ensures r == Failure(e)
      ensures storage == if e.response.Some? && e.response.value.status == 401
        then old(storage) - {TokenKey} else old(storage)
    {
      if e.response.Some? && e.response.value.status == 401 {
        storage := storage - {TokenKey};
      }
      r := Failure(e);
    }
  }
}
